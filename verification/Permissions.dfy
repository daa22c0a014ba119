/** Permission requests (src/client.rs validated_requested_permissions,
    describe_permissions, approval_response): which profiles may be granted, what
    the authority is shown of them, and what an Allow answers. The encoded size
    of a JSON value is an arbitrary function. */
module Permissions {
  import opened Text
  import opened Json
  import opened ApprovalText

  const MAX_APPROVAL_TEXT := 160
  const MAX_PERMISSION_PROFILE_BYTES := 8192
  const MAX_PERMISSION_ENTRIES := 16

  type Size = Json -> nat

  // ---------------------------------------------------------------------------
  // Validation.

  predicate OnlyKeys2(fields: map<string, Json>, a: string, b: string) {
    forall k :: k in fields ==> k == a || k == b
  }

  /** A present string of reviewable length. */
  predicate ShortText(value: Json, name: string) {
    value.GetStr(name).Some? && |value.GetStr(name).value| <= MAX_APPROVAL_TEXT
  }

  predicate OptionalShortText(value: Json, name: string) {
    value.AbsentOrNull(name) || ShortText(value, name)
  }

  predicate BareSpecialKind(kind: string) {
    kind == "root" || kind == "minimal" || kind == "tmpdir" || kind == "slash_tmp"
  }

  predicate ValidSpecial(value: Json) {
    match value.GetStr("kind")
    case None => false
    case Some(kind) =>
      if BareSpecialKind(kind) then |value.fields| == 1
      else if kind == "project_roots" then OnlyKeys2(value.fields, "kind", "subpath") && OptionalShortText(value, "subpath")
      else if kind == "unknown" then
        && (forall k :: k in value.fields ==> k == "kind" || k == "path" || k == "subpath")
        && ShortText(value, "path") && OptionalShortText(value, "subpath")
      else false
  }

  predicate ValidPath(value: Json) {
    match value.GetStr("type")
    case None => false
    case Some(kind) =>
      if kind == "path" then OnlyKeys2(value.fields, "type", "path") && ShortText(value, "path")
      else if kind == "glob_pattern" then OnlyKeys2(value.fields, "type", "pattern") && ShortText(value, "pattern")
      else if kind == "special" then
        OnlyKeys2(value.fields, "type", "value") && "value" in value.fields && ValidSpecial(value.fields["value"])
      else false
  }

  predicate IsAccess(access: string) {
    access == "read" || access == "write" || access == "deny"
  }

  predicate ValidEntry(entry: Json) {
    && entry.Obj?
    && OnlyKeys2(entry.fields, "access", "path")
    && entry.GetStr("access").Some? && IsAccess(entry.GetStr("access").value)
    && ValidPath(entry.Get("path").GetOr(Null))
  }

  predicate ValidEntries(value: Json) {
    value.Arr? && |value.items| <= MAX_PERMISSION_ENTRIES && forall entry :: entry in value.items ==> ValidEntry(entry)
  }

  predicate ValidPathList(value: Json) {
    && value.Arr? && |value.items| <= MAX_PERMISSION_ENTRIES
    && forall path :: path in value.items ==> path.Str? && |path.s| <= MAX_APPROVAL_TEXT
  }

  predicate IsFileSystemKey(k: string) {
    k == "entries" || k == "globScanMaxDepth" || k == "read" || k == "write"
  }

  predicate ValidFileSystem(value: Json) {
    || value.Null?
    || (&& value.Obj?
        && (forall k :: k in value.fields ==> IsFileSystemKey(k))
        && (value.AbsentOrNull("entries") || ValidEntries(value.fields["entries"]))
        && (value.AbsentOrNull("globScanMaxDepth") || (value.fields["globScanMaxDepth"].IsU64() && value.fields["globScanMaxDepth"].n > 0))
        && (value.AbsentOrNull("read") || ValidPathList(value.fields["read"]))
        && (value.AbsentOrNull("write") || ValidPathList(value.fields["write"])))
  }

  predicate ValidNetwork(value: Json) {
    || value.Null?
    || (&& value.Obj?
        && (forall k :: k in value.fields ==> k == "enabled")
        && (value.AbsentOrNull("enabled") || value.fields["enabled"].Bool?))
  }

  function ItemCount(value: Json, name: string): nat {
    |value.GetArr(name).GetOr([])|
  }

  function EntryCount(profile: Json): nat {
    var fileSystem := profile.Get("fileSystem").GetOr(Null);
    ItemCount(fileSystem, "entries") + ItemCount(fileSystem, "read") + ItemCount(fileSystem, "write")
  }

  predicate ValidProfile(size: Size, profile: Json) {
    && size(profile) <= MAX_PERMISSION_PROFILE_BYTES
    && profile.Obj?
    && OnlyKeys2(profile.fields, "fileSystem", "network")
    && ValidFileSystem(profile.Get("fileSystem").GetOr(Null))
    && ValidNetwork(profile.Get("network").GetOr(Null))
    && EntryCount(profile) <= MAX_PERMISSION_ENTRIES
  }

  function Validated(size: Size, params: Json): Option<Json> {
    match params.Get("permissions")
    case None => None
    case Some(profile) => if ValidProfile(size, profile) then Some(profile) else None
  }

  // ---------------------------------------------------------------------------
  // Description.

  datatype FileSystemPermission = FileSystemPermission(
    access: string, kind: string, path: Option<string>, pattern: Option<string>, specialKind: Option<string>, subpath: Option<string>)

  datatype RequestedPermissions = RequestedPermissions(
    fileSystem: seq<FileSystemPermission>, networkEnabled: Option<bool>, globScanMaxDepth: Option<int>)

  function Shown(text: Option<string>): Option<string> {
    match text
    case None => None
    case Some(t) => Some(Sanitized(t, MAX_APPROVAL_TEXT))
  }

  predicate TextReviewable(text: Option<string>) {
    text.None? || Reviewable(text.value, MAX_APPROVAL_TEXT)
  }

  predicate IsSpecialKind(kind: string) {
    BareSpecialKind(kind) || kind == "project_roots" || kind == "unknown"
  }

  function DescribeSpecial(value: Json): Option<(FileSystemPermission, bool)> {
    match value.GetStr("kind")
    case None => None
    case Some(kind) =>
      if !IsSpecialKind(kind) then None
      else
        var path, subpath := value.GetStr("path"), value.GetStr("subpath");
        Some((FileSystemPermission("", "special", Shown(path), None, Some(kind), Shown(subpath)),
              TextReviewable(path) && TextReviewable(subpath)))
  }

  function DescribePath(value: Json): Option<(FileSystemPermission, bool)> {
    match value.GetStr("type")
    case None => None
    case Some(kind) =>
      if kind == "path" then
        var path := value.GetStr("path");
        if path.None? then None
        else Some((FileSystemPermission("", "path", Shown(path), None, None, None), TextReviewable(path)))
      else if kind == "glob_pattern" then
        var pattern := value.GetStr("pattern");
        if pattern.None? then None
        else Some((FileSystemPermission("", "glob_pattern", None, Shown(pattern), None, None), TextReviewable(pattern)))
      else if kind == "special" then
        match value.Get("value")
        case None => None
        case Some(v) => DescribeSpecial(v)
      else None
  }

  /** What is shown of one entry; nothing if it cannot be described. */
  function EntrySummary(entry: Json): Option<(FileSystemPermission, bool)> {
    match (entry.GetStr("access"), DescribePath(entry.Get("path").GetOr(Null)))
    case (Some(access), Some((path, safe))) => Some((path.(access := access), safe))
    case _ => None
  }

  function PathSummary(access: string, path: Json): Option<(FileSystemPermission, bool)> {
    if path.Str? then Some((FileSystemPermission(access, "path", Shown(Some(path.s)), None, None, None), TextReviewable(Some(path.s))))
    else None
  }

  /** The summaries of the items that have one. */
  function Summaries(items: seq<Json>, summary: Json -> Option<(FileSystemPermission, bool)>): seq<FileSystemPermission> {
    if items == [] then []
    else
      var rest := Summaries(items[..|items| - 1], summary);
      match summary(items[|items| - 1])
      case None => rest
      case Some((permission, _)) => rest + [permission]
  }

  predicate AllReviewable(items: seq<Json>, summary: Json -> Option<(FileSystemPermission, bool)>) {
    forall item :: item in items ==> summary(item).Some? && summary(item).value.1
  }

  function Entries(profile: Json, name: string): seq<Json> {
    profile.Get("fileSystem").GetOr(Null).GetArr(name).GetOr([])
  }

  function PathsAs(access: string): Json -> Option<(FileSystemPermission, bool)> {
    path => PathSummary(access, path)
  }

  function FileSystemSummary(profile: Json): seq<FileSystemPermission> {
    Summaries(Entries(profile, "entries"), EntrySummary)
    + Summaries(Entries(profile, "read"), PathsAs("read"))
    + Summaries(Entries(profile, "write"), PathsAs("write"))
  }

  function NetworkEnabled(profile: Json): Option<bool> {
    match profile.Get("network").GetOr(Null).Get("enabled")
    case Some(Bool(b)) => Some(b)
    case _ => None
  }

  function GlobScanMaxDepth(profile: Json): Option<int> {
    match profile.Get("fileSystem").GetOr(Null).Get("globScanMaxDepth")
    case Some(v) => if v.IsU64() then Some(v.n) else None
    case None => None
  }

  function Described(profile: Json): RequestedPermissions {
    RequestedPermissions(FileSystemSummary(profile), NetworkEnabled(profile), GlobScanMaxDepth(profile))
  }

  predicate ProfileReviewable(profile: Json) {
    && AllReviewable(Entries(profile, "entries"), EntrySummary)
    && AllReviewable(Entries(profile, "read"), PathsAs("read"))
    && AllReviewable(Entries(profile, "write"), PathsAs("write"))
  }

  method DescribeItems(items: seq<Json>, summary: Json -> Option<(FileSystemPermission, bool)>,
                       fileSystem: seq<FileSystemPermission>, reviewable: bool)
    returns (shown: seq<FileSystemPermission>, ok: bool)
    ensures shown == fileSystem + Summaries(items, summary)
    ensures ok <==> reviewable && AllReviewable(items, summary)
  {
    shown, ok := fileSystem, reviewable;
    for i := 0 to |items|
      invariant shown == fileSystem + Summaries(items[..i], summary)
      invariant ok <==> reviewable && AllReviewable(items[..i], summary)
    {
      assert items[..i + 1] == items[..i] + [items[i]] && items[..i + 1][..i] == items[..i];
      match summary(items[i]) {
        case Some((permission, safe)) =>
          ok := ok && safe;
          shown := shown + [permission];
        case None =>
          ok := false;
      }
    }
    assert items[..|items|] == items;
  }

  method DescribeLists(entries: seq<Json>, summary: Json -> Option<(FileSystemPermission, bool)>,
                       readable: seq<Json>, read: Json -> Option<(FileSystemPermission, bool)>,
                       writable: seq<Json>, write: Json -> Option<(FileSystemPermission, bool)>)
    returns (fileSystem: seq<FileSystemPermission>, reviewable: bool)
    ensures fileSystem == Summaries(entries, summary) + Summaries(readable, read) + Summaries(writable, write)
    ensures reviewable <==> AllReviewable(entries, summary) && AllReviewable(readable, read) && AllReviewable(writable, write)
  {
    fileSystem, reviewable := DescribeItems(entries, summary, [], true);
    fileSystem, reviewable := DescribeItems(readable, read, fileSystem, reviewable);
    fileSystem, reviewable := DescribeItems(writable, write, fileSystem, reviewable);
  }

  method DescribePermissions(profile: Json) returns (permissions: RequestedPermissions, reviewable: bool)
    ensures permissions == Described(profile) && (reviewable <==> ProfileReviewable(profile))
  {
    var fileSystem, ok := DescribeLists(Entries(profile, "entries"), EntrySummary,
                                        Entries(profile, "read"), PathsAs("read"),
                                        Entries(profile, "write"), PathsAs("write"));
    reviewable := ok;
    permissions := RequestedPermissions(fileSystem, NetworkEnabled(profile), GlobScanMaxDepth(profile));
  }

  // ---------------------------------------------------------------------------
  // Coverage.

  lemma {:induction false} EveryItemShown(items: seq<Json>, summary: Json -> Option<(FileSystemPermission, bool)>)
    requires forall item :: item in items ==> summary(item).Some?
    ensures |Summaries(items, summary)| == |items|
    ensures forall i :: 0 <= i < |items| ==> Summaries(items, summary)[i] == summary(items[i]).value.0
  {
    if items != [] {
      var init := items[..|items| - 1];
      assert items[|items| - 1] in items;
      forall item | item in init ensures item in items { }
      EveryItemShown(init, summary);
    }
  }

  /** Nothing of a reviewable profile is left out: one shown permission for each
      counted entry, in order, and no more than sixteen of a valid one. */
  lemma SummaryIsComplete(size: Size, profile: Json)
    requires ProfileReviewable(profile)
    ensures |FileSystemSummary(profile)| == EntryCount(profile)
    ensures ValidProfile(size, profile) ==> |FileSystemSummary(profile)| <= MAX_PERMISSION_ENTRIES
  {
    EveryItemShown(Entries(profile, "entries"), EntrySummary);
    EveryItemShown(Entries(profile, "read"), PathsAs("read"));
    EveryItemShown(Entries(profile, "write"), PathsAs("write"));
  }

  /** `x` is a string somewhere inside the value. */
  ghost predicate Leaf(value: Json, x: string) {
    match value
    case Str(s) => s == x
    case Arr(items) => exists i :: 0 <= i < |items| && Leaf(items[i], x)
    case Obj(fields) => exists k :: k in fields && Leaf(fields[k], x)
    case _ => false
  }

  predicate Keyword(x: string) {
    IsAccess(x) || IsSpecialKind(x) || x == "path" || x == "glob_pattern" || x == "special"
  }

  ghost predicate Covered(value: Json) {
    forall x :: Leaf(value, x) ==> Keyword(x) || Reviewable(x, MAX_APPROVAL_TEXT)
  }

  lemma CoveredList(value: Json)
    requires value.Arr? && forall item :: item in value.items ==> Covered(item)
    ensures Covered(value)
  {
    forall x | Leaf(value, x) ensures Keyword(x) || Reviewable(x, MAX_APPROVAL_TEXT) {
      var i :| 0 <= i < |value.items| && Leaf(value.items[i], x);
      assert Covered(value.items[i]);
    }
  }

  lemma OnlyOneKey(fields: map<string, Json>, k: string, j: string)
    requires |fields| == 1 && k in fields && j in fields
    ensures j == k
  {
    assert fields.Keys == {k} by {
      assert {k} <= fields.Keys;
      assert |fields.Keys - {k}| == 0;
    }
  }

  lemma SpecialCovered(value: Json)
    requires ValidSpecial(value) && DescribeSpecial(value).Some? && DescribeSpecial(value).value.1
    ensures Covered(value)
  {
    var kind := value.GetStr("kind").value;
    forall k | k in value.fields ensures Covered(value.fields[k]) {
      if BareSpecialKind(kind) { OnlyOneKey(value.fields, "kind", k); }
    }
  }

  lemma PathCovered(value: Json)
    requires ValidPath(value) && DescribePath(value).Some? && DescribePath(value).value.1
    ensures Covered(value)
  {
    forall k | k in value.fields ensures Covered(value.fields[k]) {
      if k == "value" && value.GetStr("type").value == "special" {
        SpecialCovered(value.fields[k]);
      }
    }
  }

  lemma EntryCovered(entry: Json)
    requires ValidEntry(entry) && EntrySummary(entry).Some? && EntrySummary(entry).value.1
    ensures Covered(entry)
  {
    forall k | k in entry.fields ensures Covered(entry.fields[k]) {
      if k == "path" { PathCovered(entry.fields[k]); }
    }
  }

  lemma EntriesCovered(value: Json)
    requires ValidEntries(value) && AllReviewable(value.items, EntrySummary)
    ensures Covered(value)
  {
    forall entry | entry in value.items ensures Covered(entry) { EntryCovered(entry); }
    CoveredList(value);
  }

  lemma PathsCovered(value: Json, access: string)
    requires ValidPathList(value) && AllReviewable(value.items, PathsAs(access))
    ensures Covered(value)
  {
    forall path | path in value.items ensures Covered(path) {
      assert PathsAs(access)(path).value.1;
    }
    CoveredList(value);
  }

  lemma FileSystemCovered(profile: Json, value: Json)
    requires value == profile.Get("fileSystem").GetOr(Null)
    requires ValidFileSystem(value) && ProfileReviewable(profile)
    ensures Covered(value)
  {
    if value.Obj? {
      forall k | k in value.fields ensures Covered(value.fields[k]) {
        var field := value.fields[k];
        if !field.Null? {
          if k == "entries" {
            EntriesCovered(field);
          } else if k == "read" {
            PathsCovered(field, "read");
          } else if k == "write" {
            PathsCovered(field, "write");
          }
        }
      }
    }
  }

  /** Every string anywhere in a profile that may be granted is a fixed keyword
      or text the authority sees unchanged. */
  lemma ProfileCovered(size: Size, profile: Json)
    requires ValidProfile(size, profile) && ProfileReviewable(profile)
    ensures Covered(profile)
  {
    forall k | k in profile.fields ensures Covered(profile.fields[k]) {
      if k == "fileSystem" { FileSystemCovered(profile, profile.fields[k]); } else { NetworkCovered(profile.fields[k]); }
    }
  }

  lemma NetworkCovered(value: Json)
    requires ValidNetwork(value)
    ensures Covered(value)
  {
  }
}
