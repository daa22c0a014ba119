/** Which approval requests may be allowed (src/client.rs
    ApprovalDescriptor::from_request), said of the request's JSON alone: of its
    fields, their types, and the text they carry. */
module AllowExactly {
  import opened Text
  import opened Json
  import opened Ordering
  import opened ApprovalText
  import opened Permissions
  import opened Descriptor

  // ---------------------------------------------------------------------------
  // Single fields.

  /** Text an authority may be shown and allow. */
  ghost predicate Passes(text: string, limit: nat) {
    (|text| <= limit && Clean(text)) || (|text| == limit && CleanButCut(text))
  }

  ghost predicate IsText(value: Json, limit: nat) {
    value.Str? && Passes(value.s, limit)
  }

  ghost predicate HasText(value: Json, name: string, limit: nat) {
    value.Get(name).Some? && IsText(value.Get(name).value, limit)
  }

  ghost predicate MayHaveText(value: Json, name: string, limit: nat) {
    value.AbsentOrNull(name) || HasText(value, name, limit)
  }

  lemma TextPasses(text: string, limit: nat)
    ensures Reviewable(text, limit) <==> Passes(text, limit)
  {
    ReviewableText(text, limit);
  }

  lemma FieldPasses(value: Json, name: string, limit: nat)
    ensures OptionalText(value, name, limit).1 <==> MayHaveText(value, name, limit)
    ensures OptionalText(value, name, limit).1 && OptionalText(value, name, limit).0.Some? <==> HasText(value, name, limit)
  {
    if value.GetStr(name).Some? { TextPasses(value.GetStr(name).value, limit); }
  }

  /** Every top-level field is one of the schema's. */
  ghost predicate OnlyKnown(params: Json, field: string -> bool) {
    params.Obj? && forall k :: k in params.fields ==> field(k)
  }

  // ---------------------------------------------------------------------------
  // A command line.

  function HostAndProtocol(host: string, protocol: string): Json {
    Obj(map["host" := Str(host), "protocol" := Str(protocol)])
  }

  /** Exactly a host and a known protocol. */
  ghost predicate GoodContext(context: Json) {
    exists host, protocol :: context == HostAndProtocol(host, protocol) && Passes(host, MAX_APPROVAL_TEXT) && IsProtocol(protocol)
  }

  ghost predicate GoodNetwork(params: Json) {
    params.AbsentOrNull("networkApprovalContext") || GoodContext(params.Get("networkApprovalContext").value)
  }

  lemma TwoFields(context: Json)
    requires context.Obj? && OnlyKeys2(context.fields, "host", "protocol")
    requires context.GetStr("host").Some? && context.GetStr("protocol").Some?
    ensures context == HostAndProtocol(context.GetStr("host").value, context.GetStr("protocol").value)
  {
    var fields := HostAndProtocol(context.GetStr("host").value, context.GetStr("protocol").value).fields;
    assert forall k :: k in context.fields <==> k in fields;
    assert context.fields == fields;
  }

  lemma NetworkShown(params: Json)
    requires DescribeNetwork(params).1
    ensures GoodNetwork(params)
  {
    if !params.AbsentOrNull("networkApprovalContext") {
      var context := params.fields["networkApprovalContext"];
      var host, protocol := context.GetStr("host").value, context.GetStr("protocol").value;
      TwoFields(context);
      TextPasses(host, MAX_APPROVAL_TEXT);
      assert context == HostAndProtocol(host, protocol);
    }
  }

  lemma ContextReads(host: string, protocol: string)
    ensures var context := HostAndProtocol(host, protocol);
            && context.GetStr("host") == Some(host) && context.GetStr("protocol") == Some(protocol)
            && OnlyKeys2(context.fields, "host", "protocol")
  {
  }

  lemma NetworkReviewed(params: Json)
    requires GoodNetwork(params)
    ensures DescribeNetwork(params).1
  {
    if !params.AbsentOrNull("networkApprovalContext") {
      var context := params.fields["networkApprovalContext"];
      var host, protocol :| context == HostAndProtocol(host, protocol) && Passes(host, MAX_APPROVAL_TEXT) && IsProtocol(protocol);
      ContextReads(host, protocol);
      TextPasses(host, MAX_APPROVAL_TEXT);
    }
  }

  lemma NetworkPasses(params: Json)
    ensures DescribeNetwork(params).1 <==> GoodNetwork(params)
  {
    if DescribeNetwork(params).1 { NetworkShown(params); }
    if GoodNetwork(params) { NetworkReviewed(params); }
  }

  ghost predicate MayExecute(params: Json) {
    && OnlyKnown(params, ExecuteField)
    && HasText(params, "command", MAX_APPROVAL_COMMAND) && HasText(params, "cwd", MAX_APPROVAL_TEXT)
    && MayHaveText(params, "environmentId", MAX_APPROVAL_TEXT) && MayHaveText(params, "reason", MAX_APPROVAL_TEXT)
    && GoodNetwork(params)
    && params.AbsentOrNull("proposedExecpolicyAmendment") && params.AbsentOrNull("proposedNetworkPolicyAmendments")
  }

  lemma ExecuteExactly(params: Json)
    ensures DescribeExecute(Base(EXECUTE, params), params).reviewable <==> MayExecute(params)
  {
    FieldPasses(params, "command", MAX_APPROVAL_COMMAND);
    FieldPasses(params, "cwd", MAX_APPROVAL_TEXT);
    FieldPasses(params, "environmentId", MAX_APPROVAL_TEXT);
    FieldPasses(params, "reason", MAX_APPROVAL_TEXT);
    NetworkPasses(params);
  }

  // ---------------------------------------------------------------------------
  // A list of arguments.

  ghost predicate GoodArguments(value: Json) {
    value.Arr? && |value.items| <= MAX_APPROVAL_LIST_ITEMS && forall item :: item in value.items ==> IsText(item, MAX_APPROVAL_COMMAND)
  }

  ghost predicate MayRunArguments(params: Json) {
    && OnlyKnown(params, ExecArgvField)
    && params.Get("command").Some? && GoodArguments(params.Get("command").value)
    && HasText(params, "cwd", MAX_APPROVAL_TEXT) && MayHaveText(params, "reason", MAX_APPROVAL_TEXT)
  }

  lemma TextsPass(items: seq<Json>)
    requires AllStrings(items)
    ensures AllTextReviewable(TextsOf(items), MAX_APPROVAL_COMMAND) <==> forall item :: item in items ==> IsText(item, MAX_APPROVAL_COMMAND)
  {
    var texts := TextsOf(items);
    forall i | 0 <= i < |items| ensures Reviewable(texts[i], MAX_APPROVAL_COMMAND) <==> IsText(items[i], MAX_APPROVAL_COMMAND) {
      assert items[i] in items;
      TextPasses(texts[i], MAX_APPROVAL_COMMAND);
    }
    if AllTextReviewable(texts, MAX_APPROVAL_COMMAND) {
      forall item | item in items ensures IsText(item, MAX_APPROVAL_COMMAND) {
        var i :| 0 <= i < |items| && items[i] == item;
        assert texts[i] in texts;
      }
    } else {
      var i :| 0 <= i < |texts| && !Reviewable(texts[i], MAX_APPROVAL_COMMAND);
      assert items[i] in items;
    }
  }

  lemma ArgumentsExactly(params: Json)
    ensures DescribeArguments(Base(EXEC_ARGV, params), params).reviewable <==> MayRunArguments(params)
  {
    FieldPasses(params, "cwd", MAX_APPROVAL_TEXT);
    FieldPasses(params, "reason", MAX_APPROVAL_TEXT);
    match params.GetArr("command")
    case None =>
    case Some(items) => if AllStrings(items) { TextsPass(items); }
  }

  // ---------------------------------------------------------------------------
  // A patch.

  /** The text of a change: the content added or deleted, or the diff. */
  function TextOf(change: Json): Option<string> {
    if change.GetStr("type") == Some("update") then change.GetStr("unified_diff") else change.GetStr("content")
  }

  /** Adds or deletes given content, or updates by a given diff, perhaps moving
      the file; and says nothing else. */
  ghost predicate GoodChange(change: Json) {
    && change.Obj? && TextOf(change).Some?
    && if change.GetStr("type") == Some("update")
       then (forall k :: k in change.fields ==> k == "type" || k == "unified_diff" || k == "move_path")
            && MayHaveText(change, "move_path", MAX_APPROVAL_TEXT)
       else (change.GetStr("type") == Some("add") || change.GetStr("type") == Some("delete"))
            && forall k :: k in change.fields ==> k == "type" || k == "content"
  }

  function TextBytes(change: Json): nat {
    Utf8Len(TextOf(change).GetOr(""))
  }

  function PatchBytes(fields: map<string, Json>, paths: seq<string>): nat
    requires forall p :: p in paths ==> p in fields
  {
    if paths == [] then 0
    else
      var last := paths[|paths| - 1];
      assert last in paths;
      assert forall p :: p in paths[..|paths| - 1] ==> p in paths;
      PatchBytes(fields, paths[..|paths| - 1]) + TextBytes(fields[last])
  }

  ghost predicate GoodChanges(fields: map<string, Json>, paths: seq<string>)
    requires forall p :: p in paths ==> p in fields
  {
    forall p :: p in paths ==> Passes(p, MAX_APPROVAL_TEXT) && GoodChange(fields[p])
  }

  /** At most sixteen files, each named in the open and changed in a known way,
      and the bytes of all texts within the budget. */
  ghost predicate GoodPatch(fields: map<string, Json>)
  {
    && |fields| <= MAX_APPROVAL_LIST_ITEMS
    && GoodChanges(fields, SortedPaths(fields))
    && PatchBytes(fields, SortedPaths(fields)) <= MAX_APPROVAL_PATCH_BYTES
  }

  ghost function SortedPaths(fields: map<string, Json>): (paths: seq<string>)
    ensures forall p :: p in paths <==> p in fields
  {
    SortedLists(fields.Keys);
    Sorted(fields.Keys)
  }

  ghost predicate MayPatch(params: Json) {
    && OnlyKnown(params, PatchField)
    && params.Get("fileChanges").Some? && params.Get("fileChanges").value.Obj? && GoodPatch(params.Get("fileChanges").value.fields)
    && MayHaveText(params, "grantRoot", MAX_APPROVAL_TEXT) && MayHaveText(params, "reason", MAX_APPROVAL_TEXT)
  }

  lemma ChangePasses(path: string, change: Json, used: nat)
    ensures var shown := ShowChange(path, change, used);
            && (shown.ok <==> Passes(path, MAX_APPROVAL_TEXT) && GoodChange(change) && used + TextBytes(change) <= MAX_APPROVAL_PATCH_BYTES)
            && (shown.ok ==> shown.used == used + TextBytes(change))
  {
    TextPasses(path, MAX_APPROVAL_TEXT);
    FieldPasses(change, "move_path", MAX_APPROVAL_TEXT);
  }

  /** As `ShowChange` does, whatever the texts are. */
  ghost predicate Charges(show: ChangeView) {
    forall path, change, used: nat ::
      var shown := show(path, change, used);
      && (shown.ok <==> Passes(path, MAX_APPROVAL_TEXT) && GoodChange(change) && used + TextBytes(change) <= MAX_APPROVAL_PATCH_BYTES)
      && (shown.ok ==> shown.used == used + TextBytes(change))
  }

  lemma ShowChangeCharges()
    ensures Charges(ShowChange)
  {
    forall path, change, used: nat ensures
      var shown := ShowChange(path, change, used);
      && (shown.ok <==> Passes(path, MAX_APPROVAL_TEXT) && GoodChange(change) && used + TextBytes(change) <= MAX_APPROVAL_PATCH_BYTES)
      && (shown.ok ==> shown.used == used + TextBytes(change))
    {
      ChangePasses(path, change, used);
    }
  }

  /** All changes pass exactly if each does and their texts fit together. */
  lemma {:induction false} ChangesPass(fields: map<string, Json>, paths: seq<string>, show: ChangeView)
    requires (forall p :: p in paths ==> p in fields) && Charges(show)
    ensures var shown := ShowChanges(fields, paths, show);
            && (shown.1 <==> GoodChanges(fields, paths) && PatchBytes(fields, paths) <= MAX_APPROVAL_PATCH_BYTES)
            && (shown.1 ==> shown.2 == PatchBytes(fields, paths))
  {
    if paths != [] {
      var init, last := paths[..|paths| - 1], paths[|paths| - 1];
      assert paths == init + [last] && last in paths;
      assert forall p :: p in init ==> p in paths;
      ChangesPass(fields, init, show);
      assert GoodChanges(fields, paths) <==> GoodChanges(fields, init) && Passes(last, MAX_APPROVAL_TEXT) && GoodChange(fields[last]);
    }
  }

  lemma PatchExactly(params: Json)
    ensures DescribePatch(Base(PATCH, params), params).reviewable <==> MayPatch(params)
  {
    FieldPasses(params, "cwd", MAX_APPROVAL_TEXT);
    FieldPasses(params, "reason", MAX_APPROVAL_TEXT);
    FieldPasses(params, "grantRoot", MAX_APPROVAL_TEXT);
    match params.Get("fileChanges")
    case Some(Obj(fields)) =>
      ShowChangeCharges();
      ChangesPass(fields, FirstPaths(fields), ShowChange);
      if |fields| <= MAX_APPROVAL_LIST_ITEMS { AllPaths(fields); }
    case _ =>
  }

  lemma AllPaths(fields: map<string, Json>)
    requires |fields| <= MAX_APPROVAL_LIST_ITEMS
    ensures FirstPaths(fields) == SortedPaths(fields)
  {
    SortedLists(fields.Keys);
  }

  // ---------------------------------------------------------------------------
  // A permission profile.

  ghost predicate PassesAt(value: Json, name: string) {
    value.GetStr(name).Some? ==> Passes(value.GetStr(name).value, MAX_APPROVAL_TEXT)
  }

  /** Whatever the entry names, it names in the open. */
  ghost predicate GoodEntry(entry: Json) {
    var path := entry.Get("path").GetOr(Null);
    var special := path.Get("value").GetOr(Null);
    PassesAt(path, "path") && PassesAt(path, "pattern") && PassesAt(special, "path") && PassesAt(special, "subpath")
  }

  ghost predicate GoodProfile(profile: Json) {
    && (forall entry :: entry in Entries(profile, "entries") ==> GoodEntry(entry))
    && (forall path :: path in Entries(profile, "read") ==> IsText(path, MAX_APPROVAL_TEXT))
    && (forall path :: path in Entries(profile, "write") ==> IsText(path, MAX_APPROVAL_TEXT))
  }

  ghost predicate MayGrantProfile(size: Size, params: Json) {
    && OnlyKnown(params, PermissionsField)
    && params.Get("permissions").Some? && ValidProfile(size, params.Get("permissions").value) && GoodProfile(params.Get("permissions").value)
    && HasText(params, "cwd", MAX_APPROVAL_TEXT)
    && MayHaveText(params, "environmentId", MAX_APPROVAL_TEXT) && MayHaveText(params, "reason", MAX_APPROVAL_TEXT)
  }

  lemma SpecialPasses(value: Json)
    requires ValidSpecial(value)
    ensures DescribeSpecial(value).Some?
    ensures DescribeSpecial(value).value.1 <==> PassesAt(value, "path") && PassesAt(value, "subpath")
  {
    if value.GetStr("path").Some? { TextPasses(value.GetStr("path").value, MAX_APPROVAL_TEXT); }
    if value.GetStr("subpath").Some? { TextPasses(value.GetStr("subpath").value, MAX_APPROVAL_TEXT); }
  }

  lemma PathPasses(value: Json)
    requires ValidPath(value)
    ensures DescribePath(value).Some?
    ensures var special := value.Get("value").GetOr(Null);
            DescribePath(value).value.1
            <==> PassesAt(value, "path") && PassesAt(value, "pattern") && PassesAt(special, "path") && PassesAt(special, "subpath")
  {
    if value.GetStr("path").Some? { TextPasses(value.GetStr("path").value, MAX_APPROVAL_TEXT); }
    if value.GetStr("pattern").Some? { TextPasses(value.GetStr("pattern").value, MAX_APPROVAL_TEXT); }
    if value.GetStr("type").value == "special" { SpecialPasses(value.fields["value"]); }
  }

  lemma EntryPasses(entry: Json)
    requires ValidEntry(entry)
    ensures EntrySummary(entry).Some? && (EntrySummary(entry).value.1 <==> GoodEntry(entry))
  {
    PathPasses(entry.Get("path").GetOr(Null));
  }

  lemma EntriesPass(profile: Json)
    requires ValidFileSystem(profile.Get("fileSystem").GetOr(Null))
    ensures AllReviewable(Entries(profile, "entries"), EntrySummary)
       <==> forall entry :: entry in Entries(profile, "entries") ==> GoodEntry(entry)
  {
    forall entry | entry in Entries(profile, "entries")
      ensures EntrySummary(entry).Some? && (EntrySummary(entry).value.1 <==> GoodEntry(entry))
    {
      EntryPasses(entry);
    }
  }

  lemma ListPasses(profile: Json, name: string, access: string)
    ensures AllReviewable(Entries(profile, name), PathsAs(access))
       <==> forall path :: path in Entries(profile, name) ==> IsText(path, MAX_APPROVAL_TEXT)
  {
    forall path ensures PathsAs(access)(path).Some? && PathsAs(access)(path).value.1 <==> IsText(path, MAX_APPROVAL_TEXT) {
      if path.Str? { TextPasses(path.s, MAX_APPROVAL_TEXT); }
    }
  }

  lemma ProfilePasses(size: Size, profile: Json)
    requires ValidProfile(size, profile)
    ensures ProfileReviewable(profile) <==> GoodProfile(profile)
  {
    EntriesPass(profile);
    ListPasses(profile, "read", "read");
    ListPasses(profile, "write", "write");
  }

  lemma PermissionsExactly(size: Size, params: Json)
    ensures DescribePermissionRequest(size, Base(PERMISSIONS, params), params).reviewable <==> MayGrantProfile(size, params)
  {
    FieldPasses(params, "cwd", MAX_APPROVAL_TEXT);
    FieldPasses(params, "reason", MAX_APPROVAL_TEXT);
    FieldPasses(params, "environmentId", MAX_APPROVAL_TEXT);
    if Validated(size, params).Some? { ProfilePasses(size, Validated(size, params).value); }
  }

  // ---------------------------------------------------------------------------
  // Every request.

  /** The request may be allowed, by its name and its JSON. */
  ghost predicate MayAllow(size: Size, name: string, params: Json) {
    || (name == EXECUTE && MayExecute(params))
    || (name == EXEC_ARGV && MayRunArguments(params))
    || (name == PATCH && MayPatch(params))
    || (name == PERMISSIONS && MayGrantProfile(size, params))
  }

  /** Allow is permitted exactly if the request says nothing but what its schema
      declares, and all it says can be shown in full. */
  lemma AllowExactly(size: Size, name: string, params: Json)
    ensures Describe(size, name, params).reviewable <==> MayAllow(size, name, params)
  {
    if name == EXECUTE {
      ExecuteExactly(params);
    } else if name == EXEC_ARGV {
      ArgumentsExactly(params);
    } else if name == PATCH {
      PatchExactly(params);
    } else if name == PERMISSIONS {
      PermissionsExactly(size, params);
    } else {
      OthersNeverAllowed(size, name, params);
    }
  }

  /** The reason of a request that may be allowed is shown as it was given. */
  lemma ReasonIsShown(size: Size, name: string, params: Json)
    requires MayAllow(size, name, params)
    ensures Describe(size, name, params).reason == params.GetStr("reason")
  {
    AllowExactly(size, name, params);
  }

  // ---------------------------------------------------------------------------
  // The answers.

  predicate Decides(name: string) {
    name == EXECUTE || name == FILE_CHANGE || name == EXEC_ARGV || name == PATCH
  }

  /** An answer lets the request go ahead exactly if Allow was ruled on a method
      decided by a word, or on a valid profile that is not the empty one. */
  lemma GrantsExactly(size: Size, name: string, ruling: Ruling, params: Option<Json>)
    ensures Grants(name, Response(size, name, ruling, params))
            <==> ruling.Allow? && (Decides(name) || (name == PERMISSIONS && params.Some? && GrantsSome(size, params.value)))
  {
    NamesDiffer();
    if name == PERMISSIONS && ruling.Allow? && params.Some? && Validated(size, params.value).Some? { AllowAnswers(size, params.value); }
  }

  /** The profile asked for is valid and not the empty one. */
  ghost predicate GrantsSome(size: Size, params: Json) {
    exists profile :: params.Get("permissions") == Some(profile) && ValidProfile(size, profile) && profile != EmptyProfile()
  }

  lemma NamesDiffer()
    ensures !Decides(PERMISSIONS)
  {
    assert |PERMISSIONS| == 32 && |EXECUTE| == 37 && |EXEC_ARGV| == 19 && |PATCH| == 18 && |FILE_CHANGE| == 31;
  }

  /** The words each method is answered with. */
  lemma WordsExactly(size: Size, name: string, ruling: Ruling, params: Option<Json>)
    requires name != PERMISSIONS
    ensures var word := Response(size, name, ruling, params).GetStr("decision");
            if name == EXECUTE || name == FILE_CHANGE then word == Some(if ruling.Allow? then "accept" else "cancel")
            else if name == EXEC_ARGV || name == PATCH then
              && (word == Some("approved") <==> ruling.Allow?)
              && (word == Some("abort") <==> ruling.Deny?)
              && (word == Some("timed_out") <==> ruling.Timeout?)
            else word == Some("cancel")
  {
    assert |"approved"| == 8 && |"abort"| == 5 && |"timed_out"| == 9;
  }
}
