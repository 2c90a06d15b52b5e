/** Where a QEMU configuration keeps its storage, and the drives put on the command line
    (`becky-fx-qemu/src/lib.rs`, `becky-fx-qemu/src/instance.rs`). */
module StorageLayout {
  import opened Wrappers
  import opened Text
  import Paths

  datatype Disk = Disk(id: string, path: string, size: nat)
  datatype ImageFormat = Raw | Qcow2
  datatype Iso = Iso(id: string, path: string)
  datatype OsImageType = IsoImage | Qcow2Image | RawImage
  datatype CloudImage = CloudImage(id: string, path: string, osType: OsImageType)

  /** `QcowOptions`; `others` are the remaining options as they are printed. */
  datatype QcowOptions = QcowOptions(backingFile: Option<string>, backingFormat: Option<string>, others: seq<string>)

  datatype DiskFile = DiskFile(disk: Disk, format: ImageFormat, opts: QcowOptions)
  datatype CloudFile = CloudFile(image: CloudImage, opts: QcowOptions)

  /** `QemuStorageType` */
  datatype Storage =
    | DiskFiles(files: seq<DiskFile>)
    | HostBlock(devices: seq<Disk>)
    | Isos(isos: seq<Iso>)
    | CloudImages(images: seq<CloudFile>)

  /** The data root and the displayed effect id. */
  datatype Home = Home(dataRoot: string, fxId: string)
  {
    function DataDir(): string { Paths.Push(dataRoot, fxId) }
  }

  function Sanitize(name: string): string {
    seq(|name|, i requires 0 <= i < |name| =>
      if 'a' <= name[i] <= 'z' || 'A' <= name[i] <= 'Z' || IsDigit(name[i]) || name[i] in {'.', '_', '-'}
      then name[i] else '_')
  }

  function SanitizedOr(name: Option<string>, otherwise: string): string {
    match name
    case Some(n) => Sanitize(n)
    case None => otherwise
  }

  function DiskStem(d: Disk): string {
    if d.id != "" then Sanitize(d.id) else SanitizedOr(Paths.FileName(d.path), "disk")
  }

  function FormatArg(f: ImageFormat): string {
    match f
    case Raw => "raw"
    case Qcow2 => "qcow2"
  }

  function Extension(f: ImageFormat): string {
    match f
    case Raw => "img"
    case Qcow2 => "qcow2"
  }

  function DiskName(f: DiskFile): string { DiskStem(f.disk) + "." + Extension(f.format) }

  function DiskPath(home: Home, f: DiskFile): string {
    Paths.Push(home.DataDir(), DiskName(f))
  }

  function IsoName(iso: Iso): string {
    if iso.id != "" then Sanitize(iso.id) else SanitizedOr(Paths.FileName(iso.path), "media.iso")
  }

  function IsoDest(home: Home, iso: Iso): string {
    Paths.Push(home.DataDir(), IsoName(iso))
  }

  function OverlayStem(image: CloudImage): string {
    if image.id != "" then Sanitize(image.id) else SanitizedOr(Paths.FileStem(image.path), "cloud-image")
  }

  function OverlayName(image: CloudImage): string { OverlayStem(image) + "." + "qcow2" }

  function OverlayPath(home: Home, image: CloudImage): string {
    Paths.Push(home.DataDir(), OverlayName(image))
  }

  function BackingFormat(t: OsImageType): Option<string> {
    match t
    case IsoImage => None
    case Qcow2Image => Some("qcow2")
    case RawImage => Some("raw")
  }

  // Drives.

  datatype Media = DiskMedia | Cdrom
  datatype Drive = Drive(file: string, media: Media, format: Option<string>, id: string)

  function DriveId(prefix: string, id: string, index: nat): string {
    prefix + "-" + (if id == "" then Decimal(index) else id)
  }

  function GroupSize(s: Storage): nat {
    match s
    case DiskFiles(files) => |files|
    case HostBlock(devices) => |devices|
    case Isos(isos) => |isos|
    case CloudImages(images) => |images|
  }

  function DriveOf(home: Home, s: Storage, i: nat): Drive
    requires i < GroupSize(s)
  {
    match s
    case DiskFiles(files) =>
      Drive(DiskPath(home, files[i]), DiskMedia, Some(FormatArg(files[i].format)), DriveId("disk", files[i].disk.id, i))
    case HostBlock(devices) =>
      Drive(devices[i].path, DiskMedia, Some("raw"), DriveId("host-block", devices[i].id, i))
    case Isos(isos) =>
      Drive(IsoDest(home, isos[i]), Cdrom, None, DriveId("iso", isos[i].id, i))
    case CloudImages(images) =>
      Drive(OverlayPath(home, images[i].image), DiskMedia, Some("qcow2"), DriveId("cloud-image", images[i].image.id, i))
  }

  /** The drives of one group in configuration order. */
  function GroupDrives(home: Home, s: Storage): seq<Drive> {
    seq(GroupSize(s), i requires 0 <= i < GroupSize(s) => DriveOf(home, s, i))
  }

  function Drives(home: Home, storage: seq<Storage>): seq<Drive> {
    if storage == [] then [] else GroupDrives(home, storage[0]) + Drives(home, storage[1..])
  }

  lemma DrivePrefix(home: Home, s: Storage, i: nat, before: seq<Drive>)
    requires i < GroupSize(s)
    ensures before + GroupDrives(home, s)[..i] + [DriveOf(home, s, i)] == before + GroupDrives(home, s)[..i + 1]
  {
  }

  lemma GroupDone(home: Home, storage: seq<Storage>, before: seq<Drive>)
    requires storage != []
    ensures var group := GroupDrives(home, storage[0]);
            before + Drives(home, storage) == before + group[..GroupSize(storage[0])] + Drives(home, storage[1..])
  {
    var group, rest := GroupDrives(home, storage[0]), Drives(home, storage[1..]);
    assert group[..GroupSize(storage[0])] == group;
    assert before + (group + rest) == before + group + rest;
  }

  method ConfiguredDrive(home: Home, s: Storage, i: nat) returns (drive: Drive)
    requires i < GroupSize(s)
    ensures drive == DriveOf(home, s, i)
  {
    match s {
      case DiskFiles(files) =>
        drive := Drive(DiskPath(home, files[i]), DiskMedia, Some(FormatArg(files[i].format)),
            DriveId("disk", files[i].disk.id, i));
      case HostBlock(devices) =>
        drive := Drive(devices[i].path, DiskMedia, Some("raw"), DriveId("host-block", devices[i].id, i));
      case Isos(isos) =>
        drive := Drive(IsoDest(home, isos[i]), Cdrom, None, DriveId("iso", isos[i].id, i));
      case CloudImages(images) =>
        drive := Drive(OverlayPath(home, images[i].image), DiskMedia, Some("qcow2"),
            DriveId("cloud-image", images[i].image.id, i));
    }
  }

  /** An ISO is a CD-ROM of no stated format, everything else a disk of the format of its file; the
      drive is named after the kind of entry and the entry's id, or its number where it has none. */
  lemma DriveExactly(home: Home, s: Storage, i: nat)
    requires i < GroupSize(s)
    ensures var d := DriveOf(home, s, i);
            (d.media == Cdrom <==> s.Isos?) && (d.format == None <==> s.Isos?)
            && (d.format == Some("raw") <==> s.HostBlock? || (s.DiskFiles? && s.files[i].format == Raw))
            && (d.format == Some("qcow2") <==> s.CloudImages? || (s.DiskFiles? && s.files[i].format == Qcow2))
            && (s.DiskFiles? ==> d.id == "disk-" + Label(s.files[i].disk.id, i))
            && (s.HostBlock? ==> d.id == "host-block-" + Label(s.devices[i].id, i))
            && (s.Isos? ==> d.id == "iso-" + Label(s.isos[i].id, i))
            && (s.CloudImages? ==> d.id == "cloud-image-" + Label(s.images[i].image.id, i))
  {
    assert |"raw"| != |"qcow2"|;
    assert "disk" + "-" == "disk-" && "host-block" + "-" == "host-block-";
    assert "iso" + "-" == "iso-" && "cloud-image" + "-" == "cloud-image-";
  }

  function Label(id: string, i: nat): string { if id == "" then Decimal(i) else id }

  /** The path of every entry's file: in the data directory, under the sanitised id or file name with
      the format's extension, or the device itself. */
  lemma DrivePathExactly(home: Home, s: Storage, i: nat)
    requires i < GroupSize(s)
    ensures var file, dir := DriveOf(home, s, i).file, Paths.Push(home.dataRoot, home.fxId);
            (s.HostBlock? ==> file == s.devices[i].path)
            && (s.DiskFiles? && s.files[i].disk.id != "" ==>
                  file == Paths.Push(dir, Sanitize(s.files[i].disk.id)
                                          + if s.files[i].format == Raw then ".img" else ".qcow2"))
            && (s.Isos? && s.isos[i].id != "" ==> file == Paths.Push(dir, Sanitize(s.isos[i].id)))
            && (s.CloudImages? && s.images[i].image.id != "" ==>
                  file == Paths.Push(dir, Sanitize(s.images[i].image.id) + ".qcow2"))
  {
    assert "." + "img" == ".img" && "." + "qcow2" == ".qcow2";
    if s.DiskFiles? {
      var stem, ext := DiskStem(s.files[i].disk), Extension(s.files[i].format);
      assert stem + "." + ext == stem + ("." + ext);
    } else if s.CloudImages? {
      var stem := OverlayStem(s.images[i].image);
      assert stem + "." + "qcow2" == stem + ("." + "qcow2");
    }
  }

  /** Without an id the last component of the configured path is used, an overlay's without its
      extension, and a fixed name where the path has none. */
  lemma NamesWithoutId(path: string, size: nat, osType: OsImageType)
    ensures var name := Paths.FileName(path);
            DiskStem(Disk("", path, size)) == (if name.Some? then Sanitize(name.value) else "disk")
            && IsoName(Iso("", path)) == (if name.Some? then Sanitize(name.value) else "media.iso")
    ensures OverlayStem(CloudImage("", path, osType))
            == if Paths.FileStem(path).Some? then Sanitize(Paths.FileStem(path).value) else "cloud-image"
  {
  }

  /** Letters, digits, dots, hyphens and underscores stay, everything else becomes an underscore. */
  lemma SanitizeExactly(name: string)
    ensures |Sanitize(name)| == |name|
    ensures forall i | 0 <= i < |name| ::
              var c := name[i];
              var keeps := 'a' <= c <= 'z' || 'A' <= c <= 'Z' || '0' <= c <= '9' || c == '.' || c == '-';
              Sanitize(name)[i] == if keeps then c else '_'
  {
  }

  /** `configured_storage_drives`: one drive per entry, in order, numbered within its group. */
  method ConfiguredStorageDrives(home: Home, storage: seq<Storage>) returns (drives: seq<Drive>)
    ensures drives == Drives(home, storage)
  {
    drives := [];
    for g := 0 to |storage|
      invariant Drives(home, storage) == drives + Drives(home, storage[g..])
    {
      var s := storage[g];
      assert storage[g..][0] == s && storage[g..][1..] == storage[g + 1..];
      ghost var before := drives;
      for i := 0 to GroupSize(s)
        invariant drives == before + GroupDrives(home, s)[..i]
      {
        DrivePrefix(home, s, i, before);
        var drive := ConfiguredDrive(home, s, i);
        drives := drives + [drive];
      }
      GroupDone(home, storage[g..], before);
    }
  }

  // Which drives are one file.

  /** The file name of a storage entry in the data directory, or the path of a host device. */
  datatype Location = InData(name: string) | Device(path: string)

  function LocationOf(s: Storage, i: nat): Location
    requires i < GroupSize(s)
  {
    match s
    case DiskFiles(files) => InData(DiskName(files[i]))
    case HostBlock(devices) => Device(devices[i].path)
    case Isos(isos) => InData(IsoName(isos[i]))
    case CloudImages(images) => InData(OverlayName(images[i].image))
  }

  function Locations(storage: seq<Storage>): seq<Location> {
    if storage == [] then []
    else
      var s := storage[0];
      seq(GroupSize(s), i requires 0 <= i < GroupSize(s) => LocationOf(s, i)) + Locations(storage[1..])
  }

  function PathAt(home: Home, l: Location): string {
    match l
    case InData(name) => Paths.Push(home.DataDir(), name)
    case Device(path) => path
  }

  lemma {:induction false} DrivesAtLocations(home: Home, storage: seq<Storage>)
    ensures |Drives(home, storage)| == |Locations(storage)|
    ensures forall k | 0 <= k < |Locations(storage)| ::
              Drives(home, storage)[k].file == PathAt(home, Locations(storage)[k])
              && (Locations(storage)[k].InData? ==> '/' !in Locations(storage)[k].name)
  {
    if storage != [] {
      DrivesAtLocations(home, storage[1..]);
      forall i | 0 <= i < GroupSize(storage[0]) ensures
          LocationOf(storage[0], i).InData? ==> '/' !in LocationOf(storage[0], i).name
      {
        if LocationOf(storage[0], i).InData? {
          NamesHaveNoSlash(storage[0], i);
        }
      }
    }
  }

  lemma NamesHaveNoSlash(s: Storage, i: nat)
    requires i < GroupSize(s) && LocationOf(s, i).InData?
    ensures '/' !in LocationOf(s, i).name
  {
    assert '/' !in "img" && '/' !in "qcow2" && '/' !in "disk" && '/' !in "media.iso" && '/' !in "cloud-image";
    match s
    case DiskFiles(files) =>
      assert '/' !in DiskStem(files[i].disk) && '/' !in Extension(files[i].format);
    case Isos(isos) =>
    case CloudImages(images) => assert '/' !in OverlayStem(images[i].image);
  }

  /** Neither entry's path is the other's: their names in the data directory differ, their devices
      differ, or the device is not that file. */
  predicate Apart(home: Home, a: Location, b: Location) {
    match (a, b)
    case (InData(x), InData(y)) => x != y
    case (Device(x), Device(y)) => x != y
    case (Device(x), InData(y)) => x != PathAt(home, b)
    case (InData(x), Device(y)) => y != PathAt(home, a)
  }

  lemma ApartExactly(home: Home, a: Location, b: Location)
    requires (a.InData? ==> '/' !in a.name) && (b.InData? ==> '/' !in b.name)
    ensures PathAt(home, a) != PathAt(home, b) <==> Apart(home, a, b)
  {
    if a.InData? && b.InData? {
      Paths.PushKeepsText(home.DataDir(), a.name, b.name);
    }
  }

  /** No two drives of the command line are one file if and only if the configured entries are
      pairwise apart: within the data directory that depends on their sanitised names alone. */
  lemma DistinctDrivesExactly(home: Home, storage: seq<Storage>)
    ensures (forall i, k | 0 <= i < k < |Drives(home, storage)| ::
               Drives(home, storage)[i].file != Drives(home, storage)[k].file)
            <==> forall i, k | 0 <= i < k < |Locations(storage)| ::
                   Apart(home, Locations(storage)[i], Locations(storage)[k])
  {
    DrivesAtLocations(home, storage);
    var drives, locations := Drives(home, storage), Locations(storage);
    forall i, k | 0 <= i < k < |locations|
      ensures drives[i].file != drives[k].file <==> Apart(home, locations[i], locations[k])
    {
      ApartExactly(home, locations[i], locations[k]);
    }
  }

  lemma SuffixesDiffer(a: string, x: string, b: string, y: string)
    requires |x| > 0 && |y| > 0 && x[|x| - 1] != y[|y| - 1]
    ensures a + x != b + y
  {
    assert (a + x)[|a + x| - 1] == x[|x| - 1] && (b + y)[|b + y| - 1] == y[|y| - 1];
  }

  /** Two disks are one file if and only if they have one format and equal sanitised names, and a
      disk is an overlay's file if and only if it is qcow2 with the overlay's sanitised name. */
  lemma ImagesShareFileExactly(home: Home, a: DiskFile, b: DiskFile, image: CloudImage)
    ensures DiskPath(home, a) == DiskPath(home, b) <==> a.format == b.format && DiskStem(a.disk) == DiskStem(b.disk)
    ensures DiskPath(home, a) == OverlayPath(home, image)
            <==> a.format.Qcow2? && DiskStem(a.disk) == OverlayStem(image)
  {
    var none: QcowOptions := QcowOptions(None, None, []);
    NamesHaveNoSlash(DiskFiles([a]), 0);
    NamesHaveNoSlash(DiskFiles([b]), 0);
    NamesHaveNoSlash(CloudImages([CloudFile(image, none)]), 0);
    Paths.PushKeepsText(home.DataDir(), DiskName(a), DiskName(b));
    Paths.PushKeepsText(home.DataDir(), DiskName(a), OverlayName(image));
    NamesEqualExactly(DiskStem(a.disk), Extension(a.format), DiskStem(b.disk), Extension(b.format));
    NamesEqualExactly(DiskStem(a.disk), Extension(a.format), OverlayStem(image), "qcow2");
  }

  lemma NamesEqualExactly(a: string, x: string, b: string, y: string)
    requires x in {"img", "qcow2"} && y in {"img", "qcow2"}
    ensures a + "." + x == b + "." + y <==> a == b && x == y
  {
    if x != y {
      SuffixesDiffer(a + ".", x, b + ".", y);
    } else if a + "." + x == b + "." + y {
      assert (a + "." + x)[..|a|] == a && (b + "." + y)[..|b|] == b;
    }
  }

  // Arguments of the image tool.

  function Join(parts: seq<string>): string {
    if parts == [] then ""
    else if |parts| == 1 then parts[0]
    else parts[0] + "," + Join(parts[1..])
  }

  function CreateOptions(o: QcowOptions): seq<string> {
    (if o.backingFile.Some? then ["backing_file=" + o.backingFile.value] else [])
    + (if o.backingFormat.Some? then ["backing_fmt=" + o.backingFormat.value] else [])
    + o.others
  }

  /** The `qemu-img` arguments that create an image. */
  function CreateArgs(format: string, path: string, size: Option<nat>, o: QcowOptions): seq<string> {
    var options := Join(CreateOptions(o));
    ["create", "--format", format] + (if options != "" then ["-o", options] else []) + [path]
    + (if size.Some? then [Decimal(size.value)] else [])
  }

  /** What a `qemu-img create` call asks for. */
  datatype CreateCall = CreateCall(format: string, options: string, path: string, size: Option<string>)

  /** A reader of `create --format <format> [-o <options>] <path> [<size>]`. */
  function ReadCreate(args: seq<string>): Option<CreateCall> {
    if |args| < 4 || args[0] != "create" || args[1] != "--format" then None
    else if args[3] == "-o" then
      if |args| == 6 then Some(CreateCall(args[2], args[4], args[5], None))
      else if |args| == 7 then Some(CreateCall(args[2], args[4], args[5], Some(args[6])))
      else None
    else if |args| == 4 then Some(CreateCall(args[2], "", args[3], None))
    else if |args| == 5 then Some(CreateCall(args[2], "", args[3], Some(args[4])))
    else None
  }

  /** The arguments give back format, joined options, path and size. */
  lemma CreateArgsRoundTrip(format: string, path: string, size: Option<nat>, o: QcowOptions)
    requires path != "-o"
    ensures ReadCreate(CreateArgs(format, path, size, o))
            == Some(CreateCall(format, Join(CreateOptions(o)), path,
                               if size.Some? then Some(Decimal(size.value)) else None))
  {
    var options := Join(CreateOptions(o));
    var head := ["create", "--format", format] + (if options != "" then ["-o", options] else []);
    assert CreateArgs(format, path, size, o)
        == head + [path] + (if size.Some? then [Decimal(size.value)] else []);
  }

  lemma {:induction false} JoinSnoc(parts: seq<string>, last: string)
    ensures Join(parts + [last]) == if parts == [] then last else Join(parts) + "," + last
    ensures Join([]) == ""
  {
    var all := parts + [last];
    if |parts| > 1 {
      JoinSnoc(parts[1..], last);
      assert all[1..] == parts[1..] + [last];
      assert Join(all) == parts[0] + "," + (Join(parts[1..]) + "," + last);
    } else if parts != [] {
      assert all[1..] == [last];
    }
  }

  /** The backing file and its format come first among the options. */
  lemma CreateOptionsLead(o: QcowOptions)
    ensures o.backingFile.Some? && o.backingFormat.Some? ==>
              CreateOptions(o)
              == ["backing_file=" + o.backingFile.value, "backing_fmt=" + o.backingFormat.value] + o.others
    ensures o.backingFile.None? && o.backingFormat.None? ==> CreateOptions(o) == o.others
  {
  }

  /** Only raw and qcow2 images can back an overlay. */
  lemma BackingFormatExactly(t: OsImageType)
    ensures BackingFormat(t) == None <==> t == IsoImage
    ensures BackingFormat(t) == Some("raw") <==> t == RawImage
    ensures BackingFormat(t) == Some("qcow2") <==> t == Qcow2Image
  {
    assert |"raw"| != |"qcow2"|;
  }

  /** An overlay is backed by its image unless the options name another backing. */
  function OverlayOptions(image: CloudImage, format: string, o: QcowOptions): QcowOptions {
    o.(backingFile := if o.backingFile.None? then Some(image.path) else o.backingFile,
       backingFormat := if o.backingFormat.None? then Some(format) else o.backingFormat)
  }

  /** An overlay names its image and the image's format as backing, and keeps what the options say
      otherwise. */
  lemma OverlayOptionsExactly(image: CloudImage, format: string, o: QcowOptions)
    ensures var p := OverlayOptions(image, format, o);
            p.backingFile == Some(if o.backingFile.Some? then o.backingFile.value else image.path)
            && p.backingFormat == Some(if o.backingFormat.Some? then o.backingFormat.value else format)
            && p.others == o.others
  {
  }
}
