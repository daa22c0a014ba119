/** The review record of an approval request (src/client.rs
    ApprovalDescriptor::from_request): arbitrary request JSON becomes a record
    for the authority and one bit saying whether Allow is permitted. Allow is
    permitted only if the record alone determines what is being granted. */
module Descriptor {
  import opened Text
  import opened Json
  import opened Ordering
  import opened ApprovalText
  import opened Permissions

  const MAX_APPROVAL_COMMAND := 512
  const MAX_APPROVAL_LIST_ITEMS := 16
  const MAX_APPROVAL_PATCH_BYTES := 8192

  const EXECUTE := "item/commandExecution/requestApproval"
  const EXEC_ARGV := "execCommandApproval"
  const PATCH := "applyPatchApproval"
  const FILE_CHANGE := "item/fileChange/requestApproval"
  const PERMISSIONS := "item/permissions/requestApproval"

  datatype FileChange = FileChange(path: string, operation: string, movePath: Option<string>, content: Option<string>, unifiedDiff: Option<string>)

  datatype Network = Network(host: string, protocol: string)

  datatype Record = Record(
    kind: string, reviewable: bool,
    command: Option<string>, arguments: Option<seq<string>>, cwd: Option<string>, environment: Option<string>,
    network: Option<Network>, reason: Option<string>, fileChanges: seq<FileChange>,
    permissions: Option<RequestedPermissions>, profile: Option<Json>, scope: Option<string>, autoReview: Option<bool>)

  // ---------------------------------------------------------------------------
  // The schema of each request.

  predicate ExecuteField(k: string) {
    || k == "turnId" || k == "approvalId" || k == "threadId" || k == "command" || k == "commandActions" || k == "cwd"
    || k == "environmentId" || k == "itemId" || k == "networkApprovalContext" || k == "proposedExecpolicyAmendment"
    || k == "proposedNetworkPolicyAmendments" || k == "reason" || k == "startedAtMs"
  }

  predicate ExecArgvField(k: string) {
    || k == "approvalId" || k == "callId" || k == "command" || k == "conversationId" || k == "cwd" || k == "parsedCmd" || k == "reason"
  }

  predicate PatchField(k: string) {
    k == "callId" || k == "conversationId" || k == "fileChanges" || k == "grantRoot" || k == "reason"
  }

  predicate PermissionsField(k: string) {
    || k == "cwd" || k == "environmentId" || k == "itemId" || k == "permissions" || k == "reason"
    || k == "startedAtMs" || k == "threadId" || k == "turnId"
  }

  predicate OnlySchemaFields(params: Json, field: string -> bool) {
    params.Obj? && forall k :: k in params.fields ==> field(k)
  }

  /** The request's method allows approval at all, and every top-level field is
      one the schema declares. `item/fileChange/requestApproval` never does. */
  predicate SchemaAllows(name: string, params: Json) {
    if name == EXECUTE then OnlySchemaFields(params, ExecuteField)
    else if name == EXEC_ARGV then OnlySchemaFields(params, ExecArgvField)
    else if name == PATCH then OnlySchemaFields(params, PatchField)
    else if name == PERMISSIONS then OnlySchemaFields(params, PermissionsField)
    else false
  }

  function Kind(name: string): string {
    if name == EXECUTE || name == EXEC_ARGV then "command"
    else if name == FILE_CHANGE || name == PATCH then "file_change"
    else if name == PERMISSIONS then "permissions"
    else "unknown"
  }

  // ---------------------------------------------------------------------------
  // Reading single fields.

  /** `optional_approval_text` and `optional_patch_path`: absent and null are the
      same; a value of another type is not shown and not reviewable. */
  function OptionalText(params: Json, name: string, limit: nat): (Option<string>, bool) {
    match params.Get(name)
    case None => (None, true)
    case Some(Null) => (None, true)
    case Some(Str(value)) => (Some(Sanitized(value, limit)), Reviewable(value, limit))
    case Some(_) => (None, false)
  }

  predicate IsProtocol(p: string) {
    p == "http" || p == "https" || p == "socks5Tcp" || p == "socks5Udp"
  }

  function DescribeNetwork(params: Json): (Option<Network>, bool) {
    if params.AbsentOrNull("networkApprovalContext") then (None, true)
    else
      var context := params.fields["networkApprovalContext"];
      var host, protocol := context.GetStr("host"), context.GetStr("protocol");
      if !context.Obj? || !OnlyKeys2(context.fields, "host", "protocol") || host.None? || protocol.None? || !IsProtocol(protocol.value)
      then (None, false)
      else (Some(Network(Sanitized(host.value, MAX_APPROVAL_TEXT), protocol.value)), Reviewable(host.value, MAX_APPROVAL_TEXT))
  }

  predicate NonNull(params: Json, name: string) {
    !params.AbsentOrNull(name)
  }

  // ---------------------------------------------------------------------------
  // What is granted, read off the request itself.

  datatype Change = Add(content: string) | Delete(content: string) | Update(diff: string, movePath: Option<string>)

  datatype Authority =
    | RunCommand(command: string, cwd: string, environment: Option<string>, network: Option<Network>)
    | RunArguments(arguments: seq<string>, cwd: string)
    | WriteFiles(grantRoot: Option<string>, changes: map<string, Change>)
    | GrantProfile(profile: Json, cwd: string, environment: Option<string>)
    | Nothing

  function StringAt(value: Json, name: string): string {
    value.GetStr(name).GetOr("")
  }

  function NetworkOf(params: Json): Option<Network> {
    match params.Get("networkApprovalContext")
    case Some(Obj(fields)) => Some(Network(StringAt(Obj(fields), "host"), StringAt(Obj(fields), "protocol")))
    case _ => None
  }

  function ItemsOf(params: Json, name: string): seq<Json> {
    params.GetArr(name).GetOr([])
  }

  function TextsOf(items: seq<Json>): seq<string> {
    seq(|items|, i requires 0 <= i < |items| => if items[i].Str? then items[i].s else "")
  }

  function ChangeOf(change: Json): Change {
    if change.GetStr("type") == Some("update") then Update(StringAt(change, "unified_diff"), change.GetStr("move_path"))
    else if change.GetStr("type") == Some("add") then Add(StringAt(change, "content"))
    else Delete(StringAt(change, "content"))
  }

  function FieldsOf(params: Json, name: string): map<string, Json> {
    match params.Get(name)
    case Some(Obj(fields)) => fields
    case _ => map[]
  }

  function ChangesOf(fields: map<string, Json>): map<string, Change> {
    map path | path in fields :: ChangeOf(fields[path])
  }

  function AuthorityOf(name: string, params: Json): Authority {
    if name == EXECUTE then
      RunCommand(StringAt(params, "command"), StringAt(params, "cwd"), params.GetStr("environmentId"), NetworkOf(params))
    else if name == EXEC_ARGV then RunArguments(TextsOf(ItemsOf(params, "command")), StringAt(params, "cwd"))
    else if name == PATCH then WriteFiles(params.GetStr("grantRoot"), ChangesOf(FieldsOf(params, "fileChanges")))
    else if name == PERMISSIONS then
      GrantProfile(params.Get("permissions").GetOr(Null), StringAt(params, "cwd"), params.GetStr("environmentId"))
    else Nothing
  }

  // ---------------------------------------------------------------------------
  // The same, recovered from the record alone.

  function DecodeChange(change: FileChange): Change {
    if change.operation == "update" then Update(change.unifiedDiff.GetOr(""), change.movePath)
    else if change.operation == "add" then Add(change.content.GetOr(""))
    else Delete(change.content.GetOr(""))
  }

  function DecodeChanges(changes: seq<FileChange>): map<string, Change> {
    if changes == [] then map[]
    else DecodeChanges(changes[..|changes| - 1])[changes[|changes| - 1].path := DecodeChange(changes[|changes| - 1])]
  }

  predicate IsGrantRoot(change: FileChange) {
    change.operation == "grant_root"
  }

  function Decode(r: Record): Authority {
    if r.kind == "command" && r.arguments.Some? then RunArguments(r.arguments.value, r.cwd.GetOr(""))
    else if r.kind == "command" then RunCommand(r.command.GetOr(""), r.cwd.GetOr(""), r.environment, r.network)
    else if r.kind == "permissions" then GrantProfile(r.profile.GetOr(Null), r.cwd.GetOr(""), r.environment)
    else if r.kind == "file_change" then
      if r.fileChanges != [] && IsGrantRoot(r.fileChanges[0])
      then WriteFiles(Some(r.fileChanges[0].path), DecodeChanges(r.fileChanges[1..]))
      else WriteFiles(None, DecodeChanges(r.fileChanges))
    else Nothing
  }

  // ---------------------------------------------------------------------------
  // Building the record.

  /** The fields every request shares. */
  function Base(name: string, params: Json): Record {
    var cwd := OptionalText(params, "cwd", MAX_APPROVAL_TEXT);
    var reason := OptionalText(params, "reason", MAX_APPROVAL_TEXT);
    Record(Kind(name), cwd.1 && reason.1 && SchemaAllows(name, params),
           None, None, cwd.0, None, None, reason.0, [], None, None, None, None)
  }

  function DescribeExecute(base: Record, params: Json): Record {
    var command := OptionalText(params, "command", MAX_APPROVAL_COMMAND);
    var environment := OptionalText(params, "environmentId", MAX_APPROVAL_TEXT);
    var network := DescribeNetwork(params);
    base.(command := command.0, environment := environment.0, network := network.0,
          reviewable := base.reviewable && command.1 && command.0.Some? && environment.1 && network.1 && base.cwd.Some?
                        && !NonNull(params, "proposedExecpolicyAmendment") && !NonNull(params, "proposedNetworkPolicyAmendments"))
  }

  predicate AllStrings(items: seq<Json>) {
    forall item :: item in items ==> item.Str?
  }

  predicate AllTextReviewable(texts: seq<string>, limit: nat) {
    forall t :: t in texts ==> Reviewable(t, limit)
  }

  function ShownTexts(texts: seq<string>, limit: nat): seq<string> {
    seq(|texts|, i requires 0 <= i < |texts| => Sanitized(texts[i], limit))
  }

  function DescribeArguments(base: Record, params: Json): Record {
    match params.GetArr("command")
    case None => base.(reviewable := false)
    case Some(items) =>
      if !AllStrings(items) then base.(reviewable := false)
      else
        var texts := TextsOf(items);
        base.(arguments := Some(ShownTexts(texts, MAX_APPROVAL_COMMAND)),
              reviewable := base.reviewable && |items| <= MAX_APPROVAL_LIST_ITEMS
                            && AllTextReviewable(texts, MAX_APPROVAL_COMMAND) && base.cwd.Some?)
  }

  function GrantRoot(root: Option<string>): seq<FileChange> {
    match root
    case None => []
    case Some(path) => [FileChange(path, "grant_root", None, None, None)]
  }

  function DescribeFileChange(base: Record, params: Json): Record {
    var root := OptionalText(params, "grantRoot", MAX_APPROVAL_TEXT);
    base.(fileChanges := GrantRoot(root.0), reviewable := false)
  }

  /** `exact_patch_text`: the text, or nothing if it is missing or exceeds what
      is left of the budget. */
  function PatchText(change: Json, name: string, used: nat): Option<string> {
    match change.GetStr(name)
    case None => None
    case Some(text) => if used + Utf8Len(text) > MAX_APPROVAL_PATCH_BYTES then None else Some(text)
  }

  /** One shown change, whether it is reviewable, and the bytes used so far. */
  datatype ShownChange = ShownChange(change: FileChange, ok: bool, used: nat)

  function Spent(text: Option<string>, used: nat): nat {
    match text
    case None => used
    case Some(t) => used + Utf8Len(t)
  }

  predicate AddOrDelete(operation: Option<string>) {
    operation == Some("add") || operation == Some("delete")
  }

  function OperationOf(change: Json): Option<string> {
    match change.GetStr("type")
    case None => None
    case Some(kind) => if kind == "add" || kind == "update" || kind == "delete" then Some(kind) else None
  }

  function ShowChange(path: string, change: Json, used: nat): ShownChange {
    var shownPath := Sanitized(path, MAX_APPROVAL_TEXT);
    if !change.Obj? then ShownChange(FileChange(shownPath, "unknown", None, None, None), false, used)
    else
      var operation := OperationOf(change);
      var pathOk := operation.Some? && Reviewable(path, MAX_APPROVAL_TEXT);
      if AddOrDelete(operation) then
        var content := PatchText(change, "content", used);
        ShownChange(FileChange(shownPath, operation.value, None, content, None),
               pathOk && content.Some? && OnlyKeys2(change.fields, "type", "content") && "type" in change.fields,
               Spent(content, used))
      else if operation == Some("update") then
        var diff := PatchText(change, "unified_diff", used);
        var move := OptionalText(change, "move_path", MAX_APPROVAL_TEXT);
        ShownChange(FileChange(shownPath, "update", move.0, None, diff),
               pathOk && diff.Some? && move.1
               && (forall k :: k in change.fields ==> k == "type" || k == "unified_diff" || k == "move_path") && "type" in change.fields,
               Spent(diff, used))
      else ShownChange(FileChange(shownPath, "unknown", None, None, None), false, used)
  }

  type ChangeView = (string, Json, nat) -> ShownChange

  /** The changes at the given paths, one after the other on one budget. */
  function ShowChanges(fields: map<string, Json>, paths: seq<string>, show: ChangeView): (seq<FileChange>, bool, nat)
    requires forall p :: p in paths ==> p in fields
  {
    if paths == [] then ([], true, 0)
    else
      var last := paths[|paths| - 1];
      assert last in paths;
      assert forall p :: p in paths[..|paths| - 1] ==> p in paths;
      var (changes, ok, used) := ShowChanges(fields, paths[..|paths| - 1], show);
      var shown := show(last, fields[last], used);
      (changes + [shown.change], ok && shown.ok, shown.used)
  }

  ghost function FirstPaths(fields: map<string, Json>): (paths: seq<string>)
    ensures forall p :: p in paths ==> p in fields
  {
    SortedLists(fields.Keys);
    var all := Sorted(fields.Keys);
    if |all| > MAX_APPROVAL_LIST_ITEMS then all[..MAX_APPROVAL_LIST_ITEMS] else all
  }

  ghost function DescribePatch(base: Record, params: Json): Record {
    var root := OptionalText(params, "grantRoot", MAX_APPROVAL_TEXT);
    var rooted := base.(fileChanges := GrantRoot(root.0), reviewable := base.reviewable && root.1);
    match params.Get("fileChanges")
    case Some(Obj(fields)) =>
      var (changes, ok, used) := ShowChanges(fields, FirstPaths(fields), ShowChange);
      rooted.(fileChanges := rooted.fileChanges + changes,
              reviewable := rooted.reviewable && ok && |fields| <= MAX_APPROVAL_LIST_ITEMS)
    case _ => rooted.(reviewable := false)
  }

  function DescribePermissionRequest(size: Size, base: Record, params: Json): Record {
    var environment := OptionalText(params, "environmentId", MAX_APPROVAL_TEXT);
    match Validated(size, params)
    case None => base.(environment := environment.0, reviewable := false)
    case Some(profile) =>
      WithProfile(base.(environment := environment.0), profile, Described(profile),
                  base.reviewable && environment.1 && base.cwd.Some? && ProfileReviewable(profile))
  }

  function WithProfile(base: Record, profile: Json, shown: RequestedPermissions, ok: bool): Record {
    base.(permissions := Some(shown), reviewable := ok,
          profile := if ok then Some(profile) else base.profile,
          scope := if ok then Some("turn") else base.scope,
          autoReview := if ok then Some(true) else base.autoReview)
  }

  ghost function Describe(size: Size, name: string, params: Json): Record {
    var base := Base(name, params);
    if name == EXECUTE then DescribeExecute(base, params)
    else if name == EXEC_ARGV then DescribeArguments(base, params)
    else if name == FILE_CHANGE then DescribeFileChange(base, params)
    else if name == PATCH then DescribePatch(base, params)
    else if name == PERMISSIONS then DescribePermissionRequest(size, base, params)
    else base
  }

  // ---------------------------------------------------------------------------
  // The record as the program builds it.

  method ShowPaths(fields: map<string, Json>, paths: seq<string>, show: ChangeView, before: seq<FileChange>)
    returns (fileChanges: seq<FileChange>, ok: bool)
    requires forall p :: p in paths ==> p in fields
    ensures fileChanges == before + ShowChanges(fields, paths, show).0 && ok == ShowChanges(fields, paths, show).1
  {
    fileChanges, ok := before, true;
    var patchBytes := 0;
    for i := 0 to |paths|
      invariant fileChanges == before + ShowChanges(fields, paths[..i], show).0
      invariant ok == ShowChanges(fields, paths[..i], show).1 && patchBytes == ShowChanges(fields, paths[..i], show).2
    {
      assert paths[..i + 1][..i] == paths[..i];
      var shown := show(paths[i], fields[paths[i]], patchBytes);
      ok := ok && shown.ok;
      patchBytes := shown.used;
      fileChanges := fileChanges + [shown.change];
    }
    assert paths[..|paths|] == paths;
  }

  method ShowPatch(fields: map<string, Json>, before: seq<FileChange>) returns (fileChanges: seq<FileChange>, ok: bool)
    ensures fileChanges == before + ShowChanges(fields, FirstPaths(fields), ShowChange).0
    ensures ok == ShowChanges(fields, FirstPaths(fields), ShowChange).1
  {
    var paths := Iterate(fields.Keys);
    SortedLists(fields.Keys);
    if |paths| > MAX_APPROVAL_LIST_ITEMS { paths := paths[..MAX_APPROVAL_LIST_ITEMS]; }
    fileChanges, ok := ShowPaths(fields, paths, ShowChange, before);
  }

  method FromRequest(size: Size, name: string, params: Json) returns (descriptor: Record, allowPermitted: bool)
    ensures descriptor == Describe(size, name, params) && allowPermitted == descriptor.reviewable
  {
    descriptor := Base(name, params);
    if name == EXECUTE {
      descriptor := DescribeExecute(descriptor, params);
    } else if name == EXEC_ARGV {
      descriptor := DescribeArguments(descriptor, params);
    } else if name == FILE_CHANGE {
      descriptor := DescribeFileChange(descriptor, params);
    } else if name == PATCH {
      descriptor := DescribeThePatch(descriptor, params);
    } else if name == PERMISSIONS {
      descriptor := DescribeThePermissions(size, descriptor, params);
    }
    allowPermitted := descriptor.reviewable;
  }

  method DescribeThePatch(base: Record, params: Json) returns (descriptor: Record)
    ensures descriptor == DescribePatch(base, params)
  {
    descriptor := base;
    var root, rootReviewable := OptionalText(params, "grantRoot", MAX_APPROVAL_TEXT).0, OptionalText(params, "grantRoot", MAX_APPROVAL_TEXT).1;
    descriptor := descriptor.(reviewable := descriptor.reviewable && rootReviewable, fileChanges := GrantRoot(root));
    match params.Get("fileChanges") {
      case Some(Obj(fields)) =>
        if |fields| > MAX_APPROVAL_LIST_ITEMS { descriptor := descriptor.(reviewable := false); }
        var fileChanges, ok := ShowPatch(fields, descriptor.fileChanges);
        descriptor := descriptor.(fileChanges := fileChanges, reviewable := descriptor.reviewable && ok);
      case _ =>
        descriptor := descriptor.(reviewable := false);
    }
  }

  method DescribeThePermissions(size: Size, base: Record, params: Json) returns (descriptor: Record)
    ensures descriptor == DescribePermissionRequest(size, base, params)
  {
    descriptor := base;
    var environment := OptionalText(params, "environmentId", MAX_APPROVAL_TEXT);
    descriptor := descriptor.(environment := environment.0,
                              reviewable := descriptor.reviewable && environment.1 && descriptor.cwd.Some?);
    match Validated(size, params) {
      case None =>
        descriptor := descriptor.(reviewable := false);
      case Some(profile) =>
        var permissions, reviewable := DescribePermissions(profile);
        descriptor := FillProfile(descriptor, profile, permissions, reviewable);
    }
  }

  /** The exact profile joins the record only once nothing spoke against it. */
  method FillProfile(base: Record, profile: Json, permissions: RequestedPermissions, reviewable: bool) returns (descriptor: Record)
    ensures descriptor == WithProfile(base, profile, permissions, base.reviewable && reviewable)
  {
    descriptor := base.(permissions := Some(permissions), reviewable := base.reviewable && reviewable);
    if descriptor.reviewable {
      descriptor := descriptor.(profile := Some(profile), scope := Some("turn"), autoReview := Some(true));
    }
  }

  // ---------------------------------------------------------------------------
  // Allow means lossless.

  lemma ExecuteLossless(params: Json)
    requires DescribeExecute(Base(EXECUTE, params), params).reviewable
    ensures Decode(DescribeExecute(Base(EXECUTE, params), params)) == AuthorityOf(EXECUTE, params)
  {
  }

  lemma TextsExact(texts: seq<string>, limit: nat)
    requires AllTextReviewable(texts, limit)
    ensures ShownTexts(texts, limit) == texts
  {
    forall i | 0 <= i < |texts| ensures Sanitized(texts[i], limit) == texts[i] { assert texts[i] in texts; }
  }

  lemma ArgumentsLossless(params: Json)
    requires DescribeArguments(Base(EXEC_ARGV, params), params).reviewable
    ensures Decode(DescribeArguments(Base(EXEC_ARGV, params), params)) == AuthorityOf(EXEC_ARGV, params)
  {
    TextsExact(TextsOf(ItemsOf(params, "command")), MAX_APPROVAL_COMMAND);
  }

  lemma PermissionsLossless(size: Size, params: Json)
    requires DescribePermissionRequest(size, Base(PERMISSIONS, params), params).reviewable
    ensures Decode(DescribePermissionRequest(size, Base(PERMISSIONS, params), params)) == AuthorityOf(PERMISSIONS, params)
  {
  }

  ghost function ChangesAt(fields: map<string, Json>, paths: seq<string>): map<string, Change>
    requires forall p :: p in paths ==> p in fields
  {
    map p | p in paths :: ChangeOf(fields[p])
  }

  lemma ChangesAtLast(fields: map<string, Json>, init: seq<string>, last: string)
    requires (forall p :: p in init ==> p in fields) && last in fields
    ensures ChangesAt(fields, init + [last]) == ChangesAt(fields, init)[last := ChangeOf(fields[last])]
  {
  }

  ghost predicate Exact(show: ChangeView) {
    forall path, change, used :: show(path, change, used).ok ==>
      var shown := show(path, change, used).change;
      shown.path == path && DecodeChange(shown) == ChangeOf(change) && !IsGrantRoot(shown)
  }

  lemma ShowChangeIsExact()
    ensures Exact(ShowChange)
  {
    forall path, change, used | ShowChange(path, change, used).ok
      ensures var shown := ShowChange(path, change, used).change;
              shown.path == path && DecodeChange(shown) == ChangeOf(change) && !IsGrantRoot(shown)
    {
    }
  }

  /** The changes at some paths, shown in full, decode to those changes. */
  lemma {:induction false} ChangesExact(fields: map<string, Json>, paths: seq<string>, show: ChangeView)
    requires (forall p :: p in paths ==> p in fields) && Exact(show) && ShowChanges(fields, paths, show).1
    ensures DecodeChanges(ShowChanges(fields, paths, show).0) == ChangesAt(fields, paths)
    ensures forall c :: c in ShowChanges(fields, paths, show).0 ==> !IsGrantRoot(c)
  {
    if paths != [] {
      var init, last := paths[..|paths| - 1], paths[|paths| - 1];
      assert paths == init + [last] && last in paths;
      assert forall p :: p in init ==> p in paths;
      ChangesExact(fields, init, show);
      ChangesAtLast(fields, init, last);
      var (changes, ok, used) := ShowChanges(fields, init, show);
      assert show(last, fields[last], used).ok;
      DecodeLast(changes, show(last, fields[last], used).change);
    }
  }

  lemma DecodeLast(changes: seq<FileChange>, last: FileChange)
    ensures DecodeChanges(changes + [last]) == DecodeChanges(changes)[last.path := DecodeChange(last)]
  {
    assert (changes + [last])[..|changes|] == changes;
  }

  lemma AllPathsShown(fields: map<string, Json>)
    requires |fields| <= MAX_APPROVAL_LIST_ITEMS
    ensures forall p :: p in FirstPaths(fields) <==> p in fields
  {
    SortedLists(fields.Keys);
  }

  lemma DecodeRooted(r: Record, root: Option<string>, changes: seq<FileChange>)
    requires r.kind == "file_change" && r.fileChanges == GrantRoot(root) + changes
    requires forall c :: c in changes ==> !IsGrantRoot(c)
    ensures Decode(r) == WriteFiles(root, DecodeChanges(changes))
  {
    if root.None? {
      assert r.fileChanges == changes;
    } else {
      assert r.fileChanges[1..] == changes;
    }
  }

  lemma PatchLossless(params: Json)
    requires DescribePatch(Base(PATCH, params), params).reviewable
    ensures Decode(DescribePatch(Base(PATCH, params), params)) == AuthorityOf(PATCH, params)
  {
    var fields := FieldsOf(params, "fileChanges");
    var changes := ShowChanges(fields, FirstPaths(fields), ShowChange).0;
    AllPathsShown(fields);
    ShowChangeIsExact();
    ChangesExact(fields, FirstPaths(fields), ShowChange);
    assert DecodeChanges(changes) == ChangesOf(fields);
    DecodeRooted(DescribePatch(Base(PATCH, params), params), params.GetStr("grantRoot"), changes);
  }

  lemma OthersNeverAllowed(size: Size, name: string, params: Json)
    requires name != EXECUTE && name != EXEC_ARGV && name != PATCH && name != PERMISSIONS
    ensures !Describe(size, name, params).reviewable
  {
  }

  /** For every method and every request: if Allow is permitted, what it grants
      can be read off the record alone. */
  lemma LosslessAllow(size: Size, name: string, params: Json)
    requires Describe(size, name, params).reviewable
    ensures Decode(Describe(size, name, params)) == AuthorityOf(name, params)
  {
    if name == EXECUTE {
      ExecuteLossless(params);
    } else if name == EXEC_ARGV {
      ArgumentsLossless(params);
    } else if name == PATCH {
      PatchLossless(params);
    } else if name == PERMISSIONS {
      PermissionsLossless(size, params);
    } else {
      OthersNeverAllowed(size, name, params);
    }
  }

  /** Requests with the same record that both permit Allow grant the same. */
  lemma EqualRecordsGrantTheSame(size: Size, name: string, params: Json, otherName: string, other: Json)
    requires Describe(size, name, params).reviewable
    requires Describe(size, otherName, other) == Describe(size, name, params)
    ensures AuthorityOf(otherName, other) == AuthorityOf(name, params)
  {
    LosslessAllow(size, name, params);
    LosslessAllow(size, otherName, other);
  }

  // ---------------------------------------------------------------------------
  // The response.

  datatype Ruling = Allow | Deny | Timeout

  function EmptyProfile(): Json {
    Obj(map["fileSystem" := Obj(map["entries" := Arr([])]), "network" := Obj(map["enabled" := Bool(false)])])
  }

  function PermissionsAnswer(permissions: Json): Json {
    Obj(map["permissions" := permissions, "scope" := Str("turn"), "strictAutoReview" := Bool(true)])
  }

  function DecisionAnswer(word: string): Json {
    Obj(map["decision" := Str(word)])
  }

  function Response(size: Size, name: string, ruling: Ruling, params: Option<Json>): Json {
    if name == EXECUTE || name == FILE_CHANGE then DecisionAnswer(if ruling.Allow? then "accept" else "cancel")
    else if name == EXEC_ARGV || name == PATCH then
      DecisionAnswer(match ruling case Allow => "approved" case Deny => "abort" case Timeout => "timed_out")
    else if name == PERMISSIONS then
      PermissionsAnswer(if ruling.Allow? && params.Some? then Validated(size, params.value).GetOr(EmptyProfile()) else EmptyProfile())
    else DecisionAnswer("cancel")
  }

  /** The response lets the request go ahead. */
  predicate Grants(name: string, response: Json) {
    if name == PERMISSIONS then response.Get("permissions") != Some(EmptyProfile())
    else response.GetStr("decision") == Some("accept") || response.GetStr("decision") == Some("approved")
  }

  /** Nothing but an Allow ruling ever lets a request go ahead. */
  lemma OnlyAllowGrants(size: Size, name: string, ruling: Ruling, params: Option<Json>)
    ensures Grants(name, Response(size, name, ruling, params)) ==> ruling.Allow?
  {
  }

  /** At both limits in use a text field passes although it shows a credential
      word that is not the replacement text. */
  lemma UncleanTextPasses(name: string, limit: nat)
    requires limit == MAX_APPROVAL_TEXT || limit == MAX_APPROVAL_COMMAND
    ensures OptionalText(Obj(map[name := Str(Slipping(limit))]), name, limit) == (Some(Slipping(limit)), true)
    ensures !Clean(Slipping(limit))
  {
    SlippingPasses(limit);
  }

  /** A permission grant answers with exactly the profile that was requested and
      shown, every string of which is a keyword or shown unchanged, and lists
      each of its at most sixteen entries. */
  lemma PermissionGrant(size: Size, params: Json)
    requires Describe(size, PERMISSIONS, params).reviewable
    ensures var record := Describe(size, PERMISSIONS, params);
            && record.profile.Some? && params.Get("permissions") == record.profile
            && Response(size, PERMISSIONS, Allow, Some(params)).Get("permissions") == record.profile
            && record.permissions.Some? && |record.permissions.value.fileSystem| == EntryCount(record.profile.value) <= MAX_PERMISSION_ENTRIES
            && Covered(record.profile.value)
  {
    var profile := Validated(size, params).value;
    SummaryIsComplete(size, profile);
    ProfileCovered(size, profile);
    AllowAnswers(size, params);
  }

  lemma AllowAnswers(size: Size, params: Json)
    requires Validated(size, params).Some?
    ensures Response(size, PERMISSIONS, Allow, Some(params)).Get("permissions") == Validated(size, params)
  {
  }
}
