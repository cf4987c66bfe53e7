/** Names of members of a storage archive (scripts/storage_archive.py:33-69). */
module ArchivePath {
  import opened Common

  type Path = seq<string>

  datatype MemberType = Directory | Regular | Special

  const ROOTS: set<string> := {"objects", "uploads", "trash", "previews", ".secrets"}
  const OPTIONAL_ROOTS: set<string> := {".secrets"}

  // ----- splitting at slashes

  function Split(s: string): (r: seq<string>)
    ensures |r| > 0
  {
    if s == "" then [""]
    else
      var rest := Split(s[1..]);
      if s[0] == '/' then [""] + rest else [[s[0]] + rest[0]] + rest[1..]
  }

  function Join(parts: Path): string
    requires |parts| > 0
  {
    if |parts| == 1 then parts[0] else parts[0] + "/" + Join(parts[1..])
  }

  ghost predicate NoSlash(parts: Path) {
    forall i :: 0 <= i < |parts| ==> '/' !in parts[i]
  }

  lemma {:induction false} SplitParts(s: string)
    ensures NoSlash(Split(s)) && Join(Split(s)) == s
  {
    if s != "" {
      var rest := Split(s[1..]);
      SplitParts(s[1..]);
      if s[0] == '/' {
        assert ([""] + rest)[1..] == rest;
      } else if |rest| > 1 {
        assert ([[s[0]] + rest[0]] + rest[1..])[1..] == rest[1..];
        assert [s[0]] + (rest[0] + "/" + Join(rest[1..])) == ([s[0]] + rest[0]) + "/" + Join(rest[1..]);
      }
      assert s == [s[0]] + s[1..];
    }
  }

  lemma {:induction false} SplitAtSlash(p: string, rest: string)
    requires '/' !in p
    ensures Split(p + "/" + rest) == [p] + Split(rest)
  {
    var s := p + "/" + rest;
    if p == "" {
      assert s[1..] == rest;
    } else {
      SplitAtSlash(p[1..], rest);
      assert s[1..] == p[1..] + "/" + rest;
      assert p == [p[0]] + p[1..];
    }
  }

  lemma {:induction false} SplitPlain(p: string)
    requires '/' !in p
    ensures Split(p) == [p]
  {
    if p != "" {
      SplitPlain(p[1..]);
      assert p == [p[0]] + p[1..];
    }
  }

  lemma {:induction false} SplitJoined(parts: Path)
    requires |parts| > 0 && NoSlash(parts)
    ensures Split(Join(parts)) == parts
  {
    if |parts| == 1 {
      SplitPlain(parts[0]);
      assert parts == [parts[0]];
    } else {
      SplitJoined(parts[1..]);
      SplitAtSlash(parts[0], Join(parts[1..]));
      assert parts == [parts[0]] + parts[1..];
    }
  }

  // ----- object keys

  predicate Hex(c: char) {
    '0' <= c <= '9' || 'a' <= c <= 'f'
  }

  predicate AllHex(s: string) {
    forall i :: 0 <= i < |s| ==> Hex(s[i])
  }

  predicate HexOrDash(s: string) {
    forall i :: 0 <= i < |s| ==> Hex(s[i]) || s[i] == '-'
  }

  /** The canonical text form: five groups of 8, 4, 4, 4 and 12 digits. */
  predicate IsUuid(s: string) {
    && |s| == 36 && s[8] == '-' && s[13] == '-' && s[18] == '-' && s[23] == '-'
    && AllHex(s[..8]) && AllHex(s[9..13]) && AllHex(s[14..18]) && AllHex(s[19..23]) && AllHex(s[24..])
  }

  function WithoutDashes(s: string): string {
    if s == "" then ""
    else if s[0] == '-' then WithoutDashes(s[1..])
    else [s[0]] + WithoutDashes(s[1..])
  }

  /** `str(uuid.UUID(s))`: dashes are dropped wherever they are, and put back where they belong. */
  function Canonical(s: string): Option<string> {
    var d := WithoutDashes(s);
    if |d| != 32 then None
    else Some(d[..8] + "-" + (d[8..12] + "-" + (d[12..16] + "-" + (d[16..20] + "-" + d[20..]))))
  }

  lemma {:induction false} WithoutDashesHex(s: string)
    requires HexOrDash(s)
    ensures AllHex(WithoutDashes(s))
  {
    if s != "" {
      WithoutDashesHex(s[1..]);
    }
  }

  lemma {:induction false} WithoutDashesFixed(s: string)
    requires AllHex(s)
    ensures WithoutDashes(s) == s
  {
    if s != "" {
      WithoutDashesFixed(s[1..]);
      assert s == [s[0]] + s[1..];
    }
  }

  lemma {:induction false} DropDash(a: string, b: string)
    requires AllHex(a)
    ensures WithoutDashes(a + "-" + b) == a + WithoutDashes(b)
  {
    var s := a + "-" + b;
    if a == "" {
      assert s[1..] == b;
      assert a + WithoutDashes(b) == WithoutDashes(b);
    } else {
      DropDash(a[1..], b);
      assert s[1..] == a[1..] + "-" + b;
      assert [a[0]] + (a[1..] + WithoutDashes(b)) == a + WithoutDashes(b);
    }
  }

  lemma FiveGroups(a: string, b: string, c: string, d: string, e: string)
    requires AllHex(a) && AllHex(b) && AllHex(c) && AllHex(d) && AllHex(e)
    ensures WithoutDashes(a + "-" + (b + "-" + (c + "-" + (d + "-" + e)))) == a + (b + (c + (d + e)))
  {
    DropDash(a, b + "-" + (c + "-" + (d + "-" + e)));
    DropDash(b, c + "-" + (d + "-" + e));
    DropDash(c, d + "-" + e);
    DropDash(d, e);
    WithoutDashesFixed(e);
  }

  lemma SplitUuid(s: string)
    requires IsUuid(s)
    ensures s == s[..8] + "-" + (s[9..13] + "-" + (s[14..18] + "-" + (s[19..23] + "-" + s[24..])))
  {
  }

  lemma JoinUuid(a: string, b: string, c: string, d: string, e: string)
    requires |a| == 8 && |b| == 4 && |c| == 4 && |d| == 4 && |e| == 12
    ensures var t := a + (b + (c + (d + e)));
            |t| == 32 && t[..8] == a && t[8..12] == b && t[12..16] == c && t[16..20] == d && t[20..] == e
  {
  }

  /** A string of digits and dashes is its own canonical form exactly when it is a UUID. */
  lemma CanonicalIff(s: string)
    requires HexOrDash(s)
    ensures Canonical(s) == Some(s) <==> IsUuid(s)
  {
    WithoutDashesHex(s);
    if IsUuid(s) {
      SplitUuid(s);
      FiveGroups(s[..8], s[9..13], s[14..18], s[19..23], s[24..]);
      JoinUuid(s[..8], s[9..13], s[14..18], s[19..23], s[24..]);
    } else if Canonical(s) == Some(s) {
      CanonicalIsUuid(WithoutDashes(s), s);
    }
  }

  lemma CanonicalIsUuid(d: string, s: string)
    requires |d| == 32 && AllHex(d)
      && s == d[..8] + "-" + (d[8..12] + "-" + (d[12..16] + "-" + (d[16..20] + "-" + d[20..])))
    ensures IsUuid(s)
  {
    assert s[..8] == d[..8] && s[9..13] == d[8..12] && s[14..18] == d[12..16]
      && s[19..23] == d[16..20] && s[24..] == d[20..];
  }

  // ----- the member check

  predicate Dotted(part: string) {
    part == "" || part == "." || part == ".."
  }

  predicate AnyDotted(parts: Path) {
    exists i :: 0 <= i < |parts| && Dotted(parts[i])
  }

  /** The name without a final slash. */
  function Clean(name: string): string
    requires name != ""
  {
    if name[|name| - 1] == '/' then name[..|name| - 1] else name
  }

  predicate DriveLetter(name: string) {
    |name| >= 2 && ('A' <= name[0] <= 'Z' || 'a' <= name[0] <= 'z') && name[1] == ':'
  }

  /** The checks on a path below `objects`, given without that first part. */
  predicate ObjectMember(rel: Path, kind: MemberType) {
    if kind.Regular? then
      && |rel| == 3 && |rel[0]| == 2 && AllHex(rel[0]) && |rel[1]| == 2
        && AllHex(rel[1]) && |rel[2]| == 36 && HexOrDash(rel[2])
      && Canonical(rel[2]) == Some(rel[2]) && rel[2][..2] == rel[0] && rel[2][2..4] == rel[1]
    else |rel| + 1 <= 4
  }

  predicate StagingKey(part: string) {
    |part| == 41 && IsUuid(part[..36]) && part[36..] == ".part"
  }

  function MemberPath(name: string, kind: MemberType, size: int, roots: set<string>): Option<Path> {
    if name == "" || '\0' in name || '\\' in name || name[0] == '/' || DriveLetter(name) then None
    else
      var parts := Split(Clean(name));
      if Clean(name) == "" || AnyDotted(parts) then None
      else if parts[0] !in roots || kind.Special? then None
      else if |parts| == 1 && !kind.Directory? then None
      else if size < 0 then None
      else if parts[0] == "objects" && |parts| > 1 && !ObjectMember(parts[1..], kind) then None
      else if parts[0] == "uploads" && kind.Regular? && |parts| == 2 && !StagingKey(parts[1]) then None
      else Some(parts)
  }

  /** A path component that means nothing special to any file system. */
  predicate Plain(part: string) {
    !Dotted(part) && '/' !in part && '\\' !in part && '\0' !in part
  }

  predicate AllPlain(parts: Path) {
    forall i :: 0 <= i < |parts| ==> Plain(parts[i])
  }

  /** Where files and directories may be: roots are directories, objects sit under the shards of their own id, and
      files directly in `uploads` are staging files. */
  predicate Placed(parts: Path, kind: MemberType)
    requires |parts| > 0
  {
    && !kind.Special? && (|parts| == 1 ==> kind.Directory?)
    && (parts[0] == "objects" && |parts| > 1 && kind.Regular? ==>
          |parts| == 4 && IsUuid(parts[3]) && parts[1] == parts[3][..2] && parts[2] == parts[3][2..4])
    && (parts[0] == "objects" && kind.Directory? ==> |parts| <= 4)
    && (parts[0] == "uploads" && kind.Regular? && |parts| == 2 ==> StagingKey(parts[1]))
  }

  lemma {:induction false} JoinHolds(parts: Path, i: nat, c: char)
    requires i < |parts| && c in parts[i]
    ensures c in Join(parts)
  {
    if i > 0 {
      JoinHolds(parts[1..], i - 1, c);
    }
  }

  lemma {:induction false} JoinHoldsOnly(parts: Path, c: char)
    requires |parts| > 0 && c in Join(parts)
    ensures c == '/' || exists i :: 0 <= i < |parts| && c in parts[i]
  {
    if |parts| > 1 && c !in parts[0] && c != '/' {
      JoinHoldsOnly(parts[1..], c);
      var i :| 0 <= i < |parts[1..]| && c in parts[1..][i];
      assert c in parts[i + 1];
    }
  }

  lemma {:induction false} JoinEnds(parts: Path)
    requires |parts| > 0 && forall i :: 0 <= i < |parts| ==> Plain(parts[i])
    ensures Join(parts) != "" && Join(parts)[|Join(parts)| - 1] != '/'
    ensures |Join(parts)| >= |parts[0]| && Join(parts)[..|parts[0]|] == parts[0]
  {
    if |parts| > 1 {
      JoinEnds(parts[1..]);
    }
  }

  lemma ObjectMemberIff(parts: Path, kind: MemberType)
    requires |parts| > 1 && parts[0] == "objects" && !kind.Special?
    ensures ObjectMember(parts[1..], kind) <==> Placed(parts, kind)
  {
    if kind.Regular? && |parts| == 4 {
      if HexOrDash(parts[3]) {
        CanonicalIff(parts[3]);
      }
      if IsUuid(parts[3]) {
        UuidIsHexOrDash(parts[3]);
        assert parts[3][..2] == parts[3][..8][..2] && parts[3][2..4] == parts[3][..8][2..4];
      }
    }
  }

  lemma UuidIsHexOrDash(s: string)
    requires IsUuid(s)
    ensures HexOrDash(s)
  {
    forall i | 0 <= i < |s| ensures Hex(s[i]) || s[i] == '-' {
      assert i < 8 ==> s[i] == s[..8][i];
      assert 9 <= i < 13 ==> s[i] == s[9..13][i - 9];
      assert 14 <= i < 18 ==> s[i] == s[14..18][i - 14];
      assert 19 <= i < 23 ==> s[i] == s[19..23][i - 19];
      assert 24 <= i ==> s[i] == s[24..][i - 24];
    }
  }

  /** The characters and the shape of an acceptable name. */
  ghost predicate Names(name: string, parts: Path) {
    |parts| > 0 && AllPlain(parts) && (name == Join(parts) || name == Join(parts) + "/")
  }

  lemma NameParts(name: string, parts: Path)
    requires name != "" && '\0' !in name && '\\' !in name
    requires parts == Split(Clean(name)) && !AnyDotted(parts)
    ensures Names(name, parts)
  {
    SplitParts(Clean(name));
    forall i | 0 <= i < |parts| ensures Plain(parts[i]) {
      if '\0' in parts[i] {
        JoinHolds(parts, i, '\0');
      }
      if '\\' in parts[i] {
        JoinHolds(parts, i, '\\');
      }
    }
  }

  lemma NameChars(parts: Path, c: char)
    requires |parts| > 0 && AllPlain(parts) && (c == '\0' || c == '\\')
    ensures c !in Join(parts)
  {
    if c in Join(parts) {
      JoinHoldsOnly(parts, c);
    }
  }

  lemma NameStart(name: string, parts: Path)
    requires Names(name, parts) && parts[0] in ROOTS
    ensures name != "" && name[0] != '/' && !DriveLetter(name)
  {
    JoinEnds(parts);
    assert name[..|parts[0]|] == parts[0];
    assert name[0] == parts[0][0] && name[1] == parts[0][1];
  }

  lemma NameSplits(name: string, parts: Path)
    requires Names(name, parts) && parts[0] in ROOTS
    ensures name != "" && '\0' !in name && '\\' !in name && name[0] != '/' && !DriveLetter(name)
    ensures Clean(name) != "" && Split(Clean(name)) == parts && !AnyDotted(parts)
  {
    JoinEnds(parts);
    SplitJoined(parts);
    NameChars(parts, '\0');
    NameChars(parts, '\\');
    NameStart(name, parts);
    assert Clean(name) == Join(parts);
  }

  /** A member is let through exactly when its name spells, with or without a final slash, a path of plain components
      under an allowed root, at a place where such a member may be. */
  lemma MemberPathIff(name: string, kind: MemberType, size: int, roots: set<string>, parts: Path)
    requires roots <= ROOTS
    ensures MemberPath(name, kind, size, roots) == Some(parts) <==>
            Names(name, parts) && parts[0] in roots && size >= 0 && Placed(parts, kind)
  {
    if MemberPath(name, kind, size, roots) == Some(parts) {
      NameParts(name, parts);
    }
    if Names(name, parts) && parts[0] in roots {
      NameSplits(name, parts);
    }
    if |parts| > 1 && parts[0] == "objects" && !kind.Special? {
      ObjectMemberIff(parts, kind);
    }
  }
}
