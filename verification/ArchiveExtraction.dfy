/**
  Bounded ZIP extraction: the preflight over the member table, and the chunk-by-chunk extraction into
  a temporary directory that becomes the destination only as a whole.

  Reading the ZIP container itself is a parameter: the member table and, for each member, the stream
  of bytes that decompression will yield. Nothing relates that stream to the declared sizes.
 */
module ArchiveExtraction {
  import opened Prelude
  import opened ArtifactEscrow

  datatype Member = Member(
    filename: string,
    externalAttr: nat,
    flagBits: nat,
    fileSize: nat,
    compressSize: nat)

  /** What decompressing a member yields, and whether it ends in an error (a bad checksum, say). */
  datatype Stream = Stream(data: Bytes, broken: bool)

  datatype Archive = Archive(members: seq<Member>, streams: seq<Stream>)
  {
    predicate Valid() {
      |members| == |streams|
    }
  }

  datatype MemberKind = Symlink | Directory | Special | File

  // ---------------------------------------------------------------- paths

  /** The text without its trailing slashes. */
  function StripSlashes(name: string): string {
    if name != "" && name[|name| - 1] == '/' then StripSlashes(name[..|name| - 1]) else name
  }

  function Components(path: string): (parts: seq<string>)
    ensures |parts| > 0
  {
    if path == "" then [""]
    else
      var front := Components(path[..|path| - 1]);
      var last := path[|path| - 1];
      if last == '/' then front + [""] else front[|front| - 1 := front[|front| - 1] + [last]]
  }

  function Join(parts: seq<string>): string
    requires |parts| > 0
  {
    if |parts| == 1 then parts[0] else Join(parts[..|parts| - 1]) + "/" + parts[|parts| - 1]
  }

  /** The components are the text between the slashes, and nothing is lost. */
  lemma {:induction false} JoinComponents(path: string)
    ensures Join(Components(path)) == path
    ensures forall part :: part in Components(path) ==> '/' !in part
    decreases |path|
  {
    if path != "" {
      var front, last := path[..|path| - 1], path[|path| - 1];
      JoinComponents(front);
      var parts, grown := Components(front), Components(path);
      assert path == front + [last];
      if last == '/' {
        assert grown[..|grown| - 1] == parts;
        assert Join(grown) == front + "/" + "";
      } else {
        assert grown[..|grown| - 1] == parts[..|parts| - 1];
        assert parts[|parts| - 1] in parts;
        if |parts| > 1 {
          assert Join(grown) == Join(parts[..|parts| - 1]) + "/" + (parts[|parts| - 1] + [last]);
        }
        forall part | part in grown ensures '/' !in part {
          var i :| 0 <= i < |grown| && grown[i] == part;
          assert i < |grown| - 1 ==> parts[i] in parts;
        }
      }
    }
  }

  /** Relative POSIX paths in canonical form without control characters, backslashes or drives. */
  predicate SafeRelativePath(path: string) {
    && Canonical(path)
    && (forall c :: c in path ==> c as int >= 32 && c as int != 127 && c != '\\')
    && (forall part :: part in Components(path) ==> part != "" && part != "." && part != "..")
    && ':' !in Components(path)[0]
  }

  /** Where a file system ends up that follows the components from a root: "." and the empty component stay,
      ".." goes up, and stays at the top. */
  function Resolve(root: seq<string>, parts: seq<string>): seq<string> {
    if parts == [] then root
    else
      var here := Resolve(root, parts[..|parts| - 1]);
      match parts[|parts| - 1]
      case "" => here
      case "." => here
      case ".." => if here == [] then here else here[..|here| - 1]
      case name => here + [name]
  }

  /** The place is below the root and bears the path's own components. */
  predicate StaysBelow(root: seq<string>, path: string) {
    var place := Resolve(root, Components(path));
    root < place && place[|root|..] == Components(path)
  }

  predicate StandsForItself(part: string) {
    part != "" && part != "." && part != ".."
  }

  /** Components that stand for themselves are the only ones that lead exactly as deep as they are many. */
  lemma {:induction false} ResolveByName(root: seq<string>, parts: seq<string>)
    ensures |Resolve(root, parts)| <= |root| + |parts|
    ensures Resolve(root, parts) == root + parts <==> forall part :: part in parts ==> StandsForItself(part)
    decreases |parts|
  {
    if parts == [] {
      assert root + parts == root;
    } else {
      var front, last := parts[..|parts| - 1], parts[|parts| - 1];
      ResolveByName(root, front);
      assert parts == front + [last];
      assert root + parts == (root + front) + [last];
      assert forall part :: part in parts <==> part in front || part == last;
      var here := Resolve(root, front);
      if StandsForItself(last) {
        assert Resolve(root, parts) == here + [last];
        assert (here + [last])[..|here|] == here;
      } else {
        assert |Resolve(root, parts)| <= |here|;
      }
    }
  }

  /** Text that neither stripping nor a terminal would change, that has no backslash, and no colon before
      its first slash. */
  predicate PlainText(path: string) {
    && path != "" && Strip(path) == path
    && (forall i :: 0 <= i < |path| ==> ' ' <= path[i] && path[i] != '\U{7F}' && path[i] != '\\')
    && ColonsFollowSlash(path)
  }

  predicate ColonsFollowSlash(path: string) {
    forall i :: 0 <= i < |path| && path[i] == ':' ==> '/' in path[..i]
  }

  lemma {:induction false} OneComponent(path: string)
    ensures |Components(path)| == 1 <==> '/' !in path
    decreases |path|
  {
    if path != "" {
      var n := |path| - 1;
      OneComponent(path[..n]);
      assert path == path[..n] + [path[n]];
    }
  }

  /** The first component is the text before the first slash. */
  lemma {:induction false} FirstComponent(path: string)
    ensures ':' !in Components(path)[0] <==> ColonsFollowSlash(path)
    decreases |path|
  {
    if path != "" {
      var n := |path| - 1;
      var front := path[..n];
      FirstComponent(front);
      OneComponent(front);
      OneComponent(path);
      assert path == front + [path[n]];
      ColonsSnoc(front, path[n]);
      var first := Components(path)[0];
      if '/' !in front && path[n] != '/' {
        assert first == Components(front)[0] + [path[n]];
      } else {
        assert first == Components(front)[0];
      }
    }
  }

  lemma ColonsSnoc(front: string, last: char)
    ensures ColonsFollowSlash(front + [last]) <==> ColonsFollowSlash(front) && (last == ':' ==> '/' in front)
  {
    var path := front + [last];
    assert path[..|front|] == front;
    forall i | 0 <= i < |front| ensures path[..i] == front[..i] && path[i] == front[i] {
    }
  }

  /** The point of the path check. From any root whatever, the safe paths are exactly the plain ones that
      stay below it under their own name: ".." and its like never lead elsewhere, and no ordinary name is
      refused. */
  lemma SafePathsStayBelow(root: seq<string>, path: string)
    ensures SafeRelativePath(path) <==> PlainText(path) && StaysBelow(root, path)
  {
    hide Resolve, Components, Strip, ColonsFollowSlash;
    ResolveByName(root, Components(path));
    StripShortens(path);
    FirstComponent(path);
    assert forall i :: 0 <= i < |path| ==> path[i] in path;
  }

  /** The components of a directory above a path begin the path's own. */
  lemma {:induction false} ParentComponents(path: string, i: nat)
    requires 0 < i < |path| && path[i] == '/'
    ensures Components(path[..i]) < Components(path)
    decreases |path|
  {
    var n := |path| - 1;
    var front := path[..n];
    if i == n {
      assert Components(path) == Components(front) + [""];
    } else {
      assert front[..i] == path[..i];
      ParentComponents(front, i);
    }
  }

  /** Names that resolve by their own components resolve to different places. */
  lemma PlacesDiffer(root: seq<string>, a: string, b: string)
    requires StaysBelow(root, a) && StaysBelow(root, b) && a != b
    ensures Resolve(root, Components(a)) != Resolve(root, Components(b))
  {
    JoinComponents(a);
    JoinComponents(b);
    assert (root + Components(a))[|root|..] == Components(a);
    assert (root + Components(b))[|root|..] == Components(b);
  }

  /** The directories above a path. */
  function Parents(path: string): set<string> {
    set i | 0 < i < |path| && path[i] == '/' :: path[..i]
  }

  lemma NotItsOwnParent(path: string)
    ensures path !in Parents(path)
  {
    assert forall i :: 0 < i < |path| ==> |path[..i]| < |path|;
  }

  // ---------------------------------------------------------------- preflight

  function NameOf(member: Member): string {
    StripSlashes(member.filename)
  }

  function KindOf(member: Member): MemberKind {
    var fileType := (member.externalAttr / 65536) % 65536 / 4096;
    if fileType == 10 then Symlink
    else if member.filename != "" && member.filename[|member.filename| - 1] == '/' then Directory
    else if fileType != 0 && fileType != 8 then Special
    else File
  }

  /** Unix keeps a file type and the permissions in the upper half of the external attributes. Links are
      recognised whatever their name; a name with a trailing slash is otherwise a directory; and other names
      are files only if the type is that of a regular file or absent. */
  lemma ModeDecidesKind(member: Member, fileType: nat, permissions: nat, low: nat)
    requires fileType < 16 && permissions < 4096 && low < 65536
    requires member.externalAttr == (fileType * 4096 + permissions) * 65536 + low
    ensures KindOf(member) == Symlink <==> fileType == 10
    ensures KindOf(member) == Directory <==> fileType != 10 && member.filename != StripSlashes(member.filename)
    ensures KindOf(member) == File <==> fileType in {0, 8} && member.filename == StripSlashes(member.filename)
  {
    StrippedIsShorter(member.filename);
  }

  lemma {:induction false} StrippedIsShorter(name: string)
    ensures |StripSlashes(name)| <= |name|
    ensures StripSlashes(name) == name <==> name == "" || name[|name| - 1] != '/'
    decreases |name|
  {
    if name != "" && name[|name| - 1] == '/' {
      StrippedIsShorter(name[..|name| - 1]);
    }
  }

  predicate Encrypted(member: Member) {
    member.flagBits % 2 == 1
  }

  predicate RatioExceeded(member: Member, limits: Limits) {
    member.fileSize > 0 && member.fileSize > limits.maxCompressionRatio * AtLeastOne(member.compressSize)
  }

  /** The bytes a member may add to the extracted tree. */
  function DeclaredSize(member: Member): nat {
    if KindOf(member) == Directory then 0 else member.fileSize
  }

  function ExpandedSize(members: seq<Member>): nat {
    if members == [] then 0
    else ExpandedSize(members[..|members| - 1]) + DeclaredSize(members[|members| - 1])
  }

  predicate MemberOk(member: Member, limits: Limits) {
    && NameOf(member) != ""
    && SafeRelativePath(NameOf(member))
    && KindOf(member) != Symlink
    && KindOf(member) != Special
    && !Encrypted(member)
    && (KindOf(member) == File ==> member.fileSize <= limits.maxMemberBytes && !RatioExceeded(member, limits))
  }

  predicate DistinctNames(members: seq<Member>) {
    forall i, j :: 0 <= i < j < |members| ==> NameOf(members[i]) != NameOf(members[j])
  }

  /** The archives that the preflight lets through. */
  predicate Bounded(size: nat, members: seq<Member>, limits: Limits) {
    && size <= limits.maxArchiveBytes
    && |members| <= limits.maxArchiveMembers
    && (forall m :: m in members ==> MemberOk(m, limits))
    && DistinctNames(members)
    && ExpandedSize(members) <= limits.maxExpandedBytes
  }

  /** What the preflight accepts, member by member: a plain name that stays below any root, a file or a directory
      and nothing else, not encrypted, and a file within the size of a member and the ratio. */
  lemma AcceptedExactlyWhenOrdinary(size: nat, members: seq<Member>, limits: Limits)
    ensures Bounded(size, members, limits) <==>
              && size <= limits.maxArchiveBytes && |members| <= limits.maxArchiveMembers
              && ExpandedSize(members) <= limits.maxExpandedBytes
              && (forall i, j :: 0 <= i < j < |members| ==> StripSlashes(members[i].filename) != StripSlashes(members[j].filename))
              && (forall m :: m in members ==>
                    && PlainText(StripSlashes(m.filename)) && StaysBelow([], StripSlashes(m.filename))
                    && KindOf(m) in {File, Directory} && m.flagBits % 2 == 0
                    && (KindOf(m) == File ==>
                          m.fileSize <= limits.maxMemberBytes
                          && (m.fileSize > 0 ==> m.fileSize <= limits.maxCompressionRatio * AtLeastOne(m.compressSize))))
  {
    hide StaysBelow, PlainText, SafeRelativePath, ExpandedSize, StripSlashes, KindOf;
    forall m ensures SafeRelativePath(NameOf(m)) <==> PlainText(NameOf(m)) && StaysBelow([], NameOf(m)) {
      SafePathsStayBelow([], NameOf(m));
    }
    forall m | m in members && PlainText(NameOf(m)) ensures NameOf(m) != "" {
      PlainTextIsText(NameOf(m));
    }
  }

  lemma PlainTextIsText(path: string)
    requires PlainText(path)
    ensures path != ""
  {
  }

  /** Wherever the archive is unpacked, its members stand at different places below that root. */
  ghost predicate PlacedBelow(members: seq<Member>) {
    && (forall root, m :: m in members ==> StaysBelow(root, NameOf(m)))
    && (forall root, i, j :: 0 <= i < j < |members| ==>
          Resolve(root, Components(NameOf(members[i]))) != Resolve(root, Components(NameOf(members[j]))))
  }

  lemma AcceptedIsPlacedBelow(size: nat, members: seq<Member>, limits: Limits)
    requires Bounded(size, members, limits)
    ensures PlacedBelow(members)
  {
    hide StaysBelow, Resolve, Components, NameOf, SafeRelativePath, KindOf, Encrypted, RatioExceeded;
    forall root, m | m in members ensures StaysBelow(root, NameOf(m)) {
      SafePathsStayBelow(root, NameOf(m));
    }
    forall root, i, j | 0 <= i < j < |members|
      ensures Resolve(root, Components(NameOf(members[i]))) != Resolve(root, Components(NameOf(members[j])))
    {
      PlacesDiffer(root, NameOf(members[i]), NameOf(members[j]));
    }
  }

  lemma {:induction false} ExpandedSizeGrows(members: seq<Member>, i: nat)
    requires i <= |members|
    ensures ExpandedSize(members[..i]) <= ExpandedSize(members)
    decreases |members|
  {
    if i < |members| {
      ExpandedSizeGrows(members[..|members| - 1], i);
      assert members[..|members| - 1][..i] == members[..i];
    } else {
      assert members[..i] == members;
    }
  }

  lemma NoMembers()
    ensures ExpandedSize([]) == 0 && DistinctNames([])
  {
  }

  /** One step of the preflight's pass. */
  lemma NextSize(members: seq<Member>, i: nat)
    requires i < |members|
    ensures ExpandedSize(members[..i + 1]) == ExpandedSize(members[..i]) + DeclaredSize(members[i]) <= ExpandedSize(members)
  {
    hide DeclaredSize;
    assert members[..i + 1][..i] == members[..i];
    ExpandedSizeGrows(members, i + 1);
  }

  lemma NextName(members: seq<Member>, i: nat)
    requires i < |members|
    ensures DistinctNames(members[..i]) && (forall k :: 0 <= k < i ==> NameOf(members[k]) != NameOf(members[i]))
            ==> DistinctNames(members[..i + 1])
  {
    hide NameOf;
    var front, longer := members[..i], members[..i + 1];
    if DistinctNames(front) && forall k :: 0 <= k < i ==> NameOf(members[k]) != NameOf(members[i]) {
      forall a, b | 0 <= a < b < |longer| ensures NameOf(longer[a]) != NameOf(longer[b]) {
        assert longer[a] == members[a] && longer[b] == members[b];
        if b < i {
          assert front[a] == members[a] && front[b] == members[b];
        }
      }
    }
  }

  lemma RepeatedName(members: seq<Member>, k: nat, i: nat)
    requires k < i < |members| && NameOf(members[k]) == NameOf(members[i])
    ensures !DistinctNames(members)
  {
  }

  /** The preflight: one pass that accumulates the expanded size and the names seen. It lets an
      archive through exactly when all of its bounds hold. */
  method ValidateZipBytes(size: nat, table: Option<seq<Member>>, limits: Limits)
    returns (result: Result<seq<Member>, EscrowError>)
    requires limits.Valid()
    ensures result == if table.Some? && Bounded(size, table.value, limits) then Ok(table.value) else Err(ArchiveRejected)
    ensures result.Ok? ==> PlacedBelow(result.value)
  {
    hide PlacedBelow, SafeRelativePath, RatioExceeded, KindOf, NameOf, Encrypted, DistinctNames, ExpandedSize;
    NoMembers();
    if size > limits.maxArchiveBytes {
      return Err(ArchiveRejected);
    }
    if table.None? {
      return Err(ArchiveRejected);
    }
    var members := table.value;
    if |members| > limits.maxArchiveMembers {
      return Err(ArchiveRejected);
    }
    var expanded := 0;
    var seen: set<string> := {};
    for i := 0 to |members|
      invariant expanded == ExpandedSize(members[..i]) <= limits.maxExpandedBytes
      invariant forall n :: n in seen <==> exists k :: 0 <= k < i && NameOf(members[k]) == n
      invariant forall k :: 0 <= k < i ==> MemberOk(members[k], limits)
      invariant DistinctNames(members[..i])
    {
      var info := members[i];
      assert info in members;
      NextSize(members, i);
      NextName(members, i);
      var name := NameOf(info);
      if name == "" || !SafeRelativePath(name) {
        return Err(ArchiveRejected);
      }
      if name in seen {
        ghost var k :| 0 <= k < i && NameOf(members[k]) == name;
        RepeatedName(members, k, i);
        return Err(ArchiveRejected);
      }
      seen := seen + {name};
      var kind := KindOf(info);
      if kind == Symlink || kind == Special || Encrypted(info) {
        return Err(ArchiveRejected);
      }
      if kind == Directory {
        continue;
      }
      if info.fileSize > limits.maxMemberBytes {
        return Err(ArchiveRejected);
      }
      expanded := expanded + info.fileSize;
      if expanded > limits.maxExpandedBytes {
        return Err(ArchiveRejected);
      }
      if RatioExceeded(info, limits) {
        return Err(ArchiveRejected);
      }
    }
    assert members[..|members|] == members;
    AcceptedIsPlacedBelow(size, members, limits);
    result := Ok(members);
  }

  // ---------------------------------------------------------------- extraction

  datatype Tree = Tree(files: map<string, Bytes>, dirs: set<string>)

  /** The member's stream delivers exactly the declared bytes. */
  predicate Complete(member: Member, stream: Stream) {
    KindOf(member) == File ==> !stream.broken && |stream.data| == member.fileSize
  }

  /** No file of the archive stands where another member needs a directory. */
  predicate NoConflict(members: seq<Member>) {
    forall i, j :: 0 <= i < |members| && 0 <= j < |members| && KindOf(members[i]) == File
                   ==> NameOf(members[i]) !in Parents(NameOf(members[j]))
  }

  predicate Extractable(archive: Archive)
    requires archive.Valid()
  {
    && NoConflict(archive.members)
    && forall i :: 0 <= i < |archive.members| ==> Complete(archive.members[i], archive.streams[i])
  }

  /** The tree holds the first members and nothing else, each file with exactly its declared bytes. */
  predicate HoldsMembers(tree: Tree, archive: Archive, count: nat)
    requires archive.Valid() && count <= |archive.members|
  {
    && (forall i :: 0 <= i < count && KindOf(archive.members[i]) == File ==>
          && NameOf(archive.members[i]) in tree.files
          && tree.files[NameOf(archive.members[i])] == archive.streams[i].data
          && |archive.streams[i].data| == archive.members[i].fileSize)
    && (forall n :: n in tree.files ==>
          exists i :: 0 <= i < count && KindOf(archive.members[i]) == File && NameOf(archive.members[i]) == n)
    && (forall i :: 0 <= i < count ==> Parents(NameOf(archive.members[i])) <= tree.dirs)
    && (forall i :: 0 <= i < count && KindOf(archive.members[i]) == Directory ==> NameOf(archive.members[i]) in tree.dirs)
    && (forall d :: d in tree.dirs ==>
          exists i :: 0 <= i < count && (d in Parents(NameOf(archive.members[i]))
                        || (KindOf(archive.members[i]) == Directory && NameOf(archive.members[i]) == d)))
  }

  /** Every file and directory of the tree stands below wherever the tree is put. */
  ghost predicate Contained(tree: Tree) {
    forall root, n :: n in tree.files || n in tree.dirs ==> StaysBelow(root, n)
  }

  lemma ParentsStayBelow(root: seq<string>, path: string, parent: string)
    requires StaysBelow(root, path) && parent in Parents(path)
    ensures StaysBelow(root, parent)
  {
    var i :| 0 < i < |path| && path[i] == '/' && parent == path[..i];
    ParentComponents(path, i);
    hide Components;
    assert root + Components(path) == Resolve(root, Components(path));
    ResolveByName(root, Components(path));
    assert forall part :: part in Components(parent) ==> part in Components(path);
    ResolveByName(root, Components(parent));
  }

  lemma ExtractedIsContained(tree: Tree, archive: Archive, size: nat, limits: Limits)
    requires archive.Valid() && Bounded(size, archive.members, limits)
    requires HoldsMembers(tree, archive, |archive.members|)
    ensures Contained(tree)
  {
    hide StaysBelow, NameOf, Parents, KindOf, Bounded;
    AcceptedIsPlacedBelow(size, archive.members, limits);
    forall root, n | n in tree.files || n in tree.dirs ensures StaysBelow(root, n) {
      var i :| 0 <= i < |archive.members|
               && (NameOf(archive.members[i]) == n || n in Parents(NameOf(archive.members[i])));
      assert archive.members[i] in archive.members;
      if n in Parents(NameOf(archive.members[i])) {
        ParentsStayBelow(root, NameOf(archive.members[i]), n);
      }
    }
  }

  function Total(counts: seq<nat>): nat {
    if counts == [] then 0 else Total(counts[..|counts| - 1]) + counts[|counts| - 1]
  }

  /** At most the declared size was written of each member that was started. */
  predicate WithinDeclared(written: seq<nat>, members: seq<Member>) {
    |written| <= |members| && forall i :: 0 <= i < |written| ==> written[i] <= DeclaredSize(members[i])
  }

  lemma {:induction false} WithinExpanded(written: seq<nat>, members: seq<Member>)
    requires WithinDeclared(written, members)
    ensures Total(written) <= ExpandedSize(members)
    decreases |written|
  {
    if written == [] {
    } else {
      var n := |written| - 1;
      WithinExpanded(written[..n], members[..n]);
      assert members[..n + 1][..n] == members[..n];
      ExpandedSizeGrows(members, n + 1);
    }
  }

  /** The compressed sizes of an archive's files; an empty one counts as a byte. */
  function CompressedSize(members: seq<Member>): nat {
    if members == [] then 0
    else CompressedSize(members[..|members| - 1]) + CompressedOf(members[|members| - 1])
  }

  function CompressedOf(member: Member): nat {
    if KindOf(member) != File then 0 else AtLeastOne(member.compressSize)
  }

  function AtLeastOne(size: nat): nat {
    if size > 1 then size else 1
  }

  /** An accepted archive expands by no more than the ratio as a whole, whatever is written of it. */
  lemma {:induction false} RatioBoundsOutput(size: nat, members: seq<Member>, limits: Limits, written: seq<nat>)
    requires Bounded(size, members, limits) && WithinDeclared(written, members)
    ensures Total(written) <= limits.maxCompressionRatio * CompressedSize(members)
  {
    WithinExpanded(written, members);
    RatioBoundsSizes(members, limits);
  }

  lemma {:induction false} RatioBoundsSizes(members: seq<Member>, limits: Limits)
    requires forall m :: m in members ==> MemberOk(m, limits)
    ensures ExpandedSize(members) <= limits.maxCompressionRatio * CompressedSize(members)
    decreases |members|
  {
    hide MemberOk, DeclaredSize, CompressedOf;
    if members != [] {
      var front, last := members[..|members| - 1], members[|members| - 1];
      RatioBoundsSizes(front, limits);
      MemberWithinRatio(last, limits);
      Distributes(limits.maxCompressionRatio, CompressedSize(front), CompressedOf(last));
    }
  }

  lemma MemberWithinRatio(member: Member, limits: Limits)
    requires MemberOk(member, limits)
    ensures DeclaredSize(member) <= limits.maxCompressionRatio * CompressedOf(member)
  {
    hide SafeRelativePath, KindOf, NameOf, Encrypted;
  }

  lemma Distributes(factor: nat, a: nat, b: nat)
    ensures factor * (a + b) == factor * a + factor * b
  {
  }

  /** The chunk loop for one member. It never writes more than the declared size. */
  method WriteMember(member: Member, stream: Stream, limits: Limits)
    returns (result: Result<Bytes, EscrowError>, written: nat)
    requires limits.Valid() && KindOf(member) == File
    ensures written <= member.fileSize && written <= limits.maxMemberBytes
    ensures result.Ok? <==> Complete(member, stream) && member.fileSize <= limits.maxMemberBytes
    ensures result.Ok? ==> result.value == stream.data && written == member.fileSize
  {
    var output: Bytes := [];
    written := 0;
    while true
      invariant output <= stream.data && written == |output|
      invariant written <= member.fileSize && written <= limits.maxMemberBytes
      decreases |stream.data| - |output|
    {
      var chunk := Chunk(stream.data, |output|, limits.ioChunkBytes);
      if chunk == [] {
        break;
      }
      assert output == stream.data[..|output|];
      if written + |chunk| > member.fileSize || written + |chunk| > limits.maxMemberBytes {
        return Err(MemberSizeExceeded), written;
      }
      written := written + |chunk|;
      output := output + chunk;
    }
    if stream.broken {
      return Err(ExtractionFailed), written;
    }
    if written != member.fileSize {
      return Err(MemberSizeMismatch), written;
    }
    result := Ok(output);
  }

  /** Adds one member to a tree, or fails as the file system would when a file is in the way. */
  method ExtractMember(archive: Archive, i: nat, tree: Tree, limits: Limits)
    returns (result: Result<Tree, EscrowError>, written: nat)
    requires limits.Valid() && archive.Valid() && i < |archive.members|
    requires MemberOk(archive.members[i], limits) && DistinctNames(archive.members)
    requires HoldsMembers(tree, archive, i)
    ensures written <= DeclaredSize(archive.members[i])
    ensures result.Ok? ==> HoldsMembers(result.value, archive, i + 1)
    ensures result.Ok? ==> Complete(archive.members[i], archive.streams[i])
    ensures result.Ok? ==> StandsFree(archive.members, i)
    ensures result.Err? ==> !Extractable(archive)
  {
    hide StripSlashes, KindOf, SafeRelativePath, Parents, RatioExceeded, Encrypted;
    var info := archive.members[i];
    var name := NameOf(info);
    NotItsOwnParent(name);
    written := 0;
    if KindOf(info) == Directory {
      if exists p :: p in Parents(name) + {name} && p in tree.files {
        return Err(ExtractionFailed), 0;
      }
      var grown := Tree(tree.files, tree.dirs + Parents(name) + {name});
      return Ok(grown), 0;
    }
    if exists p :: p in Parents(name) && p in tree.files {
      return Err(ExtractionFailed), 0;
    }
    if name in tree.files || name in tree.dirs {
      return Err(ExtractionFailed), 0;
    }
    var data;
    data, written := WriteMember(info, archive.streams[i], limits);
    if data.Err? {
      return Err(data.error), written;
    }
    var grown := Tree(tree.files[name := data.value], tree.dirs + Parents(name));
    result := Ok(grown);
  }

  /** Member i is in conflict with none of the members before it. */
  predicate StandsFree(members: seq<Member>, i: nat)
    requires i < |members|
  {
    forall j :: 0 <= j <= i ==>
      && (KindOf(members[j]) == File ==> NameOf(members[j]) !in Parents(NameOf(members[i])))
      && (KindOf(members[i]) == File ==> NameOf(members[i]) !in Parents(NameOf(members[j])))
  }

  lemma NoneInTheWay(members: seq<Member>)
    requires forall i :: 0 <= i < |members| ==> StandsFree(members, i)
    ensures NoConflict(members)
  {
    hide KindOf, NameOf, Parents;
    forall i, j | 0 <= i < |members| && 0 <= j < |members| && KindOf(members[i]) == File
      ensures NameOf(members[i]) !in Parents(NameOf(members[j]))
    {
      if i <= j {
        assert StandsFree(members, j);
      } else {
        assert StandsFree(members, i);
      }
    }
  }

  /** A parent directory: the trees that stand under it, by name. */
  class ArchiveDirectory {
    var trees: map<string, Tree>

    constructor ()
      ensures trees == map[]
    {
      trees := map[];
    }

    /** Extraction is all or nothing and bounded. The destination appears exactly when the verified
        blob is an archive within bounds, the name is free, every member delivers exactly its declared
        bytes and no file is in the way of another member. In every other case the directory is as
        before. Whatever the streams contain, no member is written beyond its declared size and the
        whole never beyond the bound on expanded bytes. */
    method ExtractVerifiedZip(identity: BlobIdentity, backend: FileSystemEscrowBackend, open: Bytes -> Option<Archive>,
                              destination: string, temporary: string, limits: Limits)
      returns (result: Result<Tree, EscrowError>, written: seq<nat>)
      requires limits.Valid()
      requires forall data :: open(data).Some? ==> open(data).value.Valid()
      requires temporary !in trees && temporary != destination
      modifies this
      ensures result.Ok? <==>
                && Readable(backend.files, identity, limits)
                && var archive := open(identity.digest.content);
                && archive.Some?
                && Bounded(identity.size, archive.value.members, limits)
                && destination !in old(trees)
                && Extractable(archive.value)
      ensures result.Ok? ==>
                && trees == old(trees)[destination := result.value]
                && HoldsMembers(result.value, open(identity.digest.content).value,
                                |open(identity.digest.content).value.members|)
      ensures result.Ok? ==> Contained(result.value)
      ensures result.Err? ==> trees == old(trees)
      ensures Total(written) <= limits.maxExpandedBytes
      ensures written != [] ==> open(identity.digest.content).Some?
                                && WithinDeclared(written, open(identity.digest.content).value.members)
    {
      hide Bounded, Extractable, HoldsMembers, PlacedBelow, Contained;
      written := [];
      var data := backend.Read(identity, limits);
      if data.Err? {
        return Err(data.error), written;
      }
      ReadsAreFaithful(backend.files, identity, limits);
      var archive := open(data.value);
      var members := ValidateZipBytes(|data.value|, if archive.Some? then Some(archive.value.members) else None, limits);
      if members.Err? {
        return Err(members.error), written;
      }
      if destination in trees {
        return Err(DestinationExists), written;
      }
      trees := trees[temporary := Tree(map[], {})];
      var extracted: Result<Tree, EscrowError>;
      extracted, written := ExtractMembers(archive.value, |data.value|, limits);
      if extracted.Err? {
        trees := trees - {temporary};
        return extracted, written;
      }
      trees := trees[temporary := extracted.value];
      trees := (trees - {temporary})[destination := extracted.value];
      ExtractedIsContained(extracted.value, archive.value, |data.value|, limits);
      result := extracted;
    }
  }

  /** The loop over the members of an accepted archive, into an empty directory. */
  method ExtractMembers(archive: Archive, size: nat, limits: Limits)
    returns (result: Result<Tree, EscrowError>, written: seq<nat>)
    requires limits.Valid() && archive.Valid() && Bounded(size, archive.members, limits)
    ensures result.Ok? <==> Extractable(archive)
    ensures result.Ok? ==> HoldsMembers(result.value, archive, |archive.members|)
    ensures WithinDeclared(written, archive.members)
    ensures Total(written) <= limits.maxExpandedBytes
  {
    hide HoldsMembers, Complete, StandsFree, NoConflict, MemberOk, DistinctNames, DeclaredSize;
    var tree := Tree(map[], {});
    EmptyTree(archive);
    written := [];
    for i := 0 to |archive.members|
      invariant |written| == i && WithinDeclared(written, archive.members)
      invariant HoldsMembers(tree, archive, i)
      invariant forall k :: 0 <= k < i ==> Complete(archive.members[k], archive.streams[k])
      invariant forall k :: 0 <= k < i ==> StandsFree(archive.members, k)
    {
      var grown, bytes := ExtractMember(archive, i, tree, limits);
      written := written + [bytes];
      WithinExpanded(written, archive.members);
      if grown.Err? {
        return grown, written;
      }
      tree := grown.value;
    }
    WithinExpanded(written, archive.members);
    NoneInTheWay(archive.members);
    result := Ok(tree);
  }

  lemma EmptyTree(archive: Archive)
    requires archive.Valid()
    ensures HoldsMembers(Tree(map[], {}), archive, 0)
  {
  }
}
